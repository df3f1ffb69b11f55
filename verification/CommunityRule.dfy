/** Which community rewards a settlement pays, line by line, in terms of links, levels and rates alone
    (community.go). */
module CommunityRule {
  import opened Arith
  import opened Sums
  import opened Forest
  import opened Params
  import opened Community

  // ---- base lines ----

  ghost function LevelOf(levels: Levels, x: nat): nat
  {
    if x in levels then levels[x] else 0
  }

  /** amount is n / d to the nearest unit, halves upwards. */
  ghost predicate Nearest(n: int, d: int, amount: int)
  {
    2 * n - d < 2 * (d * amount) <= 2 * n + d
  }

  /** top is the highest level of the first i uplines of x; 0 when there are none. */
  ghost predicate HighestOf(t: Tree, levels: Levels, x: nat, i: nat, top: nat)
    requires t.Rooted() && i <= |t.Chain(x)|
  {
    && (forall j :: 0 <= j < i ==> LevelOf(levels, t.Chain(x)[j]) <= top)
    && (top == 0 || exists j :: 0 <= j < i && LevelOf(levels, t.Chain(x)[j]) == top)
  }

  /** The upline at place i of x earns gap: its level exceeds every level between it and x, and gap is
      its rate less that of the highest level between. */
  ghost predicate EarnsGap(p: Params, t: Tree, levels: Levels, x: nat, i: nat, gap: int)
    requires t.Rooted() && i < |t.Chain(x)|
  {
    exists top: nat ::
      && HighestOf(t, levels, x, i, top)
      && LevelOf(levels, t.Chain(x)[i]) > top
      && gap == TierRate(p.tiers, LevelOf(levels, t.Chain(x)[i])) - (if top == 0 then 0 else TierRate(p.tiers, top))
      && TierRate(p.tiers, LevelOf(levels, t.Chain(x)[i])) > 0 && gap > 0
  }

  /** The line u gets from one yield of x. */
  ghost predicate LineDue(p: Params, t: Tree, levels: Levels, pieces: Pieces, u: nat, line: Line)
    requires t.Rooted()
  {
    && (exists i: nat :: i < |t.Chain(line.source)| && t.Chain(line.source)[i] == u && EarnsGap(p, t, levels, line.source, i, line.gap))
    && line.source in pieces
    && (exists piece :: piece in pieces[line.source] && piece.interest > 0
                        && line.order == piece.order && line.sourceStatic == piece.interest
                        && line.sourceBuy == piece.buy && line.sourceRate == piece.ratePercent)
    && line.amount > 0 && Nearest(line.sourceStatic * line.gap, p.scale, line.amount)
  }

  lemma {:induction false} HighestIs(levels: Levels, xs: seq<nat>, top: nat)
    ensures (forall j :: 0 <= j < |xs| ==> LevelOf(levels, xs[j]) <= top)
            && (top == 0 || exists j :: 0 <= j < |xs| && LevelOf(levels, xs[j]) == top)
       <==> top == Highest(levels, xs)
  {
    if xs != [] {
      var h := Highest(levels, xs[1..]);
      HighestIs(levels, xs[1..], h);
      assert forall j :: 0 <= j < |xs| - 1 ==> xs[1..][j] == xs[j + 1];
      assert forall j :: 1 <= j < |xs| ==> xs[j] == xs[1..][j - 1];
      assert LevelOf(levels, xs[0]) == Level(levels, xs[0]);
    }
  }

  lemma HighestOfIs(t: Tree, levels: Levels, x: nat, i: nat, top: nat)
    requires t.Rooted() && i < |t.Chain(x)|
    ensures HighestOf(t, levels, x, i, top) <==> top == HighestBetween(t, levels, x, t.Chain(x)[i])
  {
    var c := t.Chain(x);
    HighestIs(levels, c[..i], top);
    HighestBetweenPrefix(t, levels, x, i);
    assert forall j :: 0 <= j < i ==> c[..i][j] == c[j];
  }

  lemma GapIs(p: Params, t: Tree, levels: Levels, x: nat, i: nat, gap: int)
    requires t.Rooted() && i < |t.Chain(x)|
    ensures EarnsGap(p, t, levels, x, i, gap) <==> gap == GapRate(p, t, levels, t.Chain(x)[i], x) && gap > 0
  {
    var u := t.Chain(x)[i];
    var top := HighestBetween(t, levels, x, u);
    HighestOfIs(t, levels, x, i, top);
    hide HighestOf, Tree.Chain, HighestBetween;
    forall other: nat
      ensures HighestOf(t, levels, x, i, other) ==> other == top
    {
      HighestOfIs(t, levels, x, i, other);
    }
  }

  lemma NearestIs(n: int, d: int, amount: int)
    requires d > 0 && n >= 0
    ensures Nearest(n, d, amount) <==> amount == RoundDiv(n, d)
  {
    var r := RoundDiv(n, d);
    ProductStep(d, amount, r);
    ProductStep(d, r, amount);
  }

  ghost predicate LineOf(p: Params, x: nat, piece: Piece, gap: int, line: Line)
    requires p.scale > 0
  {
    line == Line(x, piece.order, Share(p, piece.interest, gap), piece.interest, piece.buy, piece.ratePercent, gap) && line.amount > 0
  }

  lemma SourceLinesFirst(p: Params, x: nat, ps: seq<Piece>, gap: int, line: Line)
    requires p.scale > 0 && ps != []
    ensures line in SourceLines(p, x, ps, gap) <==> LineOf(p, x, ps[0], gap, line) || line in SourceLines(p, x, ps[1..], gap)
  {
    hide Share;
  }

  lemma {:induction false} SourceLinesAre(p: Params, x: nat, ps: seq<Piece>, gap: int, line: Line)
    requires p.scale > 0
    ensures line in SourceLines(p, x, ps, gap) <==> exists piece :: piece in ps && LineOf(p, x, piece, gap, line)
  {
    if ps != [] {
      hide SourceLines, LineOf;
      SourceLinesAre(p, x, ps[1..], gap, line);
      SourceLinesFirst(p, x, ps, gap, line);
      assert forall piece :: piece in ps <==> piece == ps[0] || piece in ps[1..];
    }
  }

  lemma {:induction false} LinesAlongAre(p: Params, t: Tree, levels: Levels, pieces: Pieces, u: nat, order: seq<nat>, line: Line)
    requires p.scale > 0 && t.Rooted()
    ensures line in LinesAlong(p, t, levels, pieces, u, order)
       <==> line.source in order && line in SourceLines(p, line.source, PiecesAt(pieces, line.source), GapRate(p, t, levels, u, line.source))
  {
    if order != [] {
      hide GapRate, Share, SourceLines;
      LinesAlongAre(p, t, levels, pieces, u, order[1..], line);
      var x := order[0];
      LineSource(p, x, PiecesAt(pieces, x), GapRate(p, t, levels, u, x), line);
    }
  }

  lemma LineSource(p: Params, x: nat, ps: seq<Piece>, gap: int, line: Line)
    requires p.scale > 0
    ensures line in SourceLines(p, x, ps, gap) ==> line.source == x
  {
    SourceLinesAre(p, x, ps, gap, line);
  }

  lemma ShareDue(p: Params, y: int, gap: int, amount: int)
    requires p.scale > 0
    ensures amount > 0 ==> (amount == Share(p, y, gap) <==> y > 0 && gap > 0 && Nearest(y * gap, p.scale, amount))
  {
    if y > 0 && gap > 0 {
      assert y * gap > 0;
      NearestIs(y * gap, p.scale, amount);
    }
  }

  lemma UnderPlace(t: Tree, u: nat, x: nat)
    requires t.Rooted()
    ensures t.Under(u, x) <==> exists i: nat :: i < |t.Chain(x)| && t.Chain(x)[i] == u
  {
    t.ChainMembers(u, x);
    assert u in t.Chain(x) <==> exists i: nat :: i < |t.Chain(x)| && t.Chain(x)[i] == u;
  }

  /** u's gap on x, wherever u stands above x. */
  lemma GapOf(p: Params, t: Tree, levels: Levels, u: nat, x: nat, gap: int)
    requires t.Rooted() && t.Under(u, x)
    ensures (exists i: nat :: i < |t.Chain(x)| && t.Chain(x)[i] == u && EarnsGap(p, t, levels, x, i, gap))
       <==> gap == GapRate(p, t, levels, u, x) && gap > 0
  {
    hide Tree.Chain, Tree.Under, EarnsGap, GapRate;
    UnderPlace(t, u, x);
    forall i: nat | i < |t.Chain(x)| && t.Chain(x)[i] == u
      ensures EarnsGap(p, t, levels, x, i, gap) <==> gap == GapRate(p, t, levels, u, x) && gap > 0
    {
      GapIs(p, t, levels, x, i, gap);
    }
  }

  /** In every forest, for all levels and yields: u's base lines are exactly the lines due to it. */
  lemma BaseLinesDue(p: Params, t: Tree, levels: Levels, pieces: Pieces, u: nat, line: Line)
    requires p.scale > 0 && t.Valid()
    ensures t.Rooted()
    ensures line in BaseLines(p, t, levels, pieces, u) <==> LineDue(p, t, levels, pieces, u, line)
  {
    assert t.Rooted();
    var x, gap := line.source, GapRate(p, t, levels, u, line.source);
    t.DownlineOrderExact(u, x);
    InOrder(t, u, x);
    LinesAlongAre(p, t, levels, pieces, u, t.DownlineOrder(u), line);
    SourceLinesAre(p, x, PiecesAt(pieces, x), gap, line);
    UnderPlace(t, u, x);
    hide Tree.Valid, Tree.Rooted, Tree.DownlineOrder, Tree.Chain, Tree.Under, GapRate, Share, EarnsGap, LinesAlong, SourceLines, Nearest;
    if t.Under(u, x) {
      GapOf(p, t, levels, u, x, line.gap);
      ShareDue(p, line.sourceStatic, line.gap, line.amount);
      PieceOfLine(p, x, PiecesAt(pieces, x), gap, line);
    }
  }

  lemma InOrder(t: Tree, u: nat, x: nat)
    requires t.Valid() && multiset(t.DownlineOrder(u))[x] == if t.Under(u, x) then 1 else 0
    ensures t.Rooted()
    ensures x in t.DownlineOrder(u) <==> t.Under(u, x)
  {
    assert x in t.DownlineOrder(u) <==> x in multiset(t.DownlineOrder(u));
  }

  lemma PieceOfLine(p: Params, x: nat, ps: seq<Piece>, gap: int, line: Line)
    requires p.scale > 0 && line.source == x
    ensures (exists piece :: piece in ps && LineOf(p, x, piece, gap, line))
       <==> line.gap == gap && line.amount > 0 && line.amount == Share(p, line.sourceStatic, gap)
            && exists piece :: piece in ps && line.order == piece.order && line.sourceStatic == piece.interest
                               && line.sourceBuy == piece.buy && line.sourceRate == piece.ratePercent
  {
    hide Share;
    forall piece | piece in ps
      ensures LineOf(p, x, piece, gap, line)
         <==> line.gap == gap && line.amount > 0 && line.amount == Share(p, line.sourceStatic, gap) && line.order == piece.order
              && line.sourceStatic == piece.interest && line.sourceBuy == piece.buy && line.sourceRate == piece.ratePercent
    {
    }
  }

  // ---- peer lines ----

  /** x's base pays its inviter r: both levels reach the minimum (3 when unset), r's is not above x's,
      and the rate times the base rounds to something. */
  ghost predicate PeerDue(p: Params, t: Tree, levels: Levels, got: Gains, x: nat, r: nat)
  {
    var least := if p.minPeerLevel <= 0 then 3 else p.minPeerLevel;
    && p.peerRate > 0
    && x in t.parent && t.parent[x] == r && r != 0
    && LevelOf(levels, x) >= least && LevelOf(levels, r) >= least && LevelOf(levels, r) <= LevelOf(levels, x)
    && x in got && got[x] > 0 && 2 * (p.peerRate * got[x]) >= p.scale
  }

  lemma PeerLineIs(p: Params, t: Tree, levels: Levels, got: Gains, x: nat)
    requires p.scale > 0
    ensures var lines := PeerLineFrom(p, t, levels, got, x);
            if exists r :: PeerDue(p, t, levels, got, x, r)
            then x in t.parent && x in got && |lines| == 1 && lines[0].recipient == t.parent[x] && lines[0].from == x
                 && lines[0].base == got[x] && lines[0].amount > 0 && Nearest(p.peerRate * got[x], p.scale, lines[0].amount)
            else lines == []
  {
    assert x in t.parent ==> (PeerDue(p, t, levels, got, x, t.parent[x]) <==> exists r :: PeerDue(p, t, levels, got, x, r));
    if x in got && got[x] > 0 && p.peerRate > 0 {
      var n := p.peerRate * got[x];
      assert n > 0 && got[x] * p.peerRate == n;
      NearestIs(n, p.scale, PeerShare(p, got[x]));
      PositiveShare(n, p.scale);
    }
  }

  lemma PositiveShare(n: int, d: int)
    requires d > 0 && n > 0
    ensures RoundDiv(n, d) > 0 <==> 2 * n >= d
  {
    NearestIs(n, d, RoundDiv(n, d));
    NearestIs(n, d, 0);
  }

  lemma OneLineEach(p: Params, t: Tree, levels: Levels, got: Gains, x: nat)
    requires p.scale > 0
    ensures |PeerLineFrom(p, t, levels, got, x)| <= 1 && forall line :: line in PeerLineFrom(p, t, levels, got, x) ==> line.from == x
  {
  }

  lemma {:induction false} PeerLinesAre(p: Params, t: Tree, levels: Levels, got: Gains, order: seq<nat>, line: PeerLine)
    requires p.scale > 0
    ensures line in PeerLines(p, t, levels, got, order) <==> line.from in order && line in PeerLineFrom(p, t, levels, got, line.from)
  {
    if order != [] {
      hide PeerLineFrom;
      PeerLinesAre(p, t, levels, got, order[1..], line);
      OneLineEach(p, t, levels, got, order[0]);
      assert line.from in order <==> line.from == order[0] || line.from in order[1..];
    }
  }

  lemma {:induction false} PeerLinesOnce(p: Params, t: Tree, levels: Levels, got: Gains, order: seq<nat>)
    requires p.scale > 0 && Distinct(order)
    ensures var lines := PeerLines(p, t, levels, got, order);
            forall i, j :: 0 <= i < j < |lines| ==> lines[i].from != lines[j].from
  {
    if order != [] {
      hide PeerLineFrom, PeerLines;
      var x, rest := order[0], order[1..];
      var head, tail := PeerLineFrom(p, t, levels, got, x), PeerLines(p, t, levels, got, rest);
      assert forall k :: 0 <= k < |rest| ==> rest[k] == order[k + 1] != x;
      assert x !in rest;
      PeerLinesOnce(p, t, levels, got, rest);
      OneLineEach(p, t, levels, got, x);
      forall line: PeerLine | line in tail
        ensures line.from != x
      {
        PeerLinesAre(p, t, levels, got, rest, line);
      }
      PeerLinesSplit(p, t, levels, got, order);
      var lines := head + tail;
      forall i, j | 0 <= i < j < |lines|
        ensures lines[i].from != lines[j].from
      {
        assert lines[j] == tail[j - |head|] && lines[j] in tail;
        if i < |head| {
          assert lines[i] in head;
        }
      }
    }
  }

  lemma PeerLinesSplit(p: Params, t: Tree, levels: Levels, got: Gains, order: seq<nat>)
    requires p.scale > 0 && order != []
    ensures PeerLines(p, t, levels, got, order) == PeerLineFrom(p, t, levels, got, order[0]) + PeerLines(p, t, levels, got, order[1..])
  {
  }

  lemma PeerLinesHave(p: Params, t: Tree, levels: Levels, got: Gains, order: seq<nat>, x: nat, r: nat)
    requires p.scale > 0
    ensures var lines := PeerLines(p, t, levels, got, order);
            (exists i :: 0 <= i < |lines| && lines[i].from == x && lines[i].recipient == r)
            <==> x in order && exists line :: line in PeerLineFrom(p, t, levels, got, x) && line.recipient == r
  {
    hide PeerLineFrom, PeerLines;
    var lines := PeerLines(p, t, levels, got, order);
    if i :| 0 <= i < |lines| && lines[i].from == x && lines[i].recipient == r {
      PeerLinesAre(p, t, levels, got, order, lines[i]);
    }
    if x in order {
      if line :| line in PeerLineFrom(p, t, levels, got, x) && line.recipient == r {
        OneLineEach(p, t, levels, got, x);
        PeerLinesAre(p, t, levels, got, order, line);
      }
    }
  }

  /** In every forest, for all levels and gains, in whatever order the earners are met: a line goes from
      x to r exactly when it is due. */
  lemma PeerLinesDue(p: Params, t: Tree, levels: Levels, got: Gains, order: seq<nat>, x: nat, r: nat)
    requires p.scale > 0
    ensures var lines := PeerLines(p, t, levels, got, order);
            (exists i :: 0 <= i < |lines| && lines[i].from == x && lines[i].recipient == r) <==> x in order && PeerDue(p, t, levels, got, x, r)
  {
    PeerLineIs(p, t, levels, got, x);
    PeerLinesHave(p, t, levels, got, order, x, r);
    hide PeerLineFrom, PeerLines, Nearest;
    if PeerDue(p, t, levels, got, x, r) {
      assert PeerLineFrom(p, t, levels, got, x)[0] in PeerLineFrom(p, t, levels, got, x);
    }
  }

  /** And it is the only one from x, with the rate times the base to the nearest unit. */
  lemma PeerLinesPay(p: Params, t: Tree, levels: Levels, got: Gains, order: seq<nat>, i: nat)
    requires p.scale > 0 && Distinct(order) && i < |PeerLines(p, t, levels, got, order)|
    ensures var line := PeerLines(p, t, levels, got, order)[i];
            && line.from in got && line.base == got[line.from] && line.amount > 0
            && Nearest(p.peerRate * got[line.from], p.scale, line.amount)
            && forall j :: 0 <= j < |PeerLines(p, t, levels, got, order)| && j != i ==> PeerLines(p, t, levels, got, order)[j].from != line.from
  {
    hide PeerLineFrom, PeerLines, Nearest, Distinct, PeerDue;
    var lines := PeerLines(p, t, levels, got, order);
    PeerLinesOnce(p, t, levels, got, order);
    PeerLinesAre(p, t, levels, got, order, lines[i]);
    PeerLineIs(p, t, levels, got, lines[i].from);
  }
}
