/** The loops of community.go, each proved against the specification in Community. */
module CommunityLoops {
  import opened Arith
  import opened Forest
  import opened Params
  import opened Community

  /** Whether an upline of node below the claimant has the claimant's level or more. */
  method UnderCommunityBreak(t: Tree, levels: Levels, node: nat, claimant: nat, claimantLevel: nat) returns (b: bool)
    requires t.Rooted()
    ensures b <==> claimantLevel > 0 && HighestBetween(t, levels, node, claimant) >= claimantLevel
  {
    if claimantLevel <= 0 || node !in t.parent {
      return false;
    }
    var cur := t.parent[node];
    while cur != claimant
      invariant HighestBetween(t, levels, node, claimant) >= claimantLevel <==>
                cur != claimant && (Level(levels, cur) >= claimantLevel
                                    || HighestBetween(t, levels, cur, claimant) >= claimantLevel)
      decreases cur
    {
      if Level(levels, cur) >= claimantLevel {
        return true;
      }
      if cur !in t.parent {
        return false;
      }
      cur := t.parent[cur];
    }
    return false;
  }

  method MaxGradedRateBetween(p: Params, t: Tree, levels: Levels, node: nat, claimant: nat) returns (rate: int)
    requires t.Rooted()
    ensures rate == p.RateFor(HighestBetween(t, levels, node, claimant))
  {
    if node !in t.parent {
      return 0;
    }
    var best := 0;
    var cur := t.parent[node];
    while cur != claimant
      invariant HighestBetween(t, levels, node, claimant)
             == if cur == claimant then best
                else Max(best, Max(Level(levels, cur), HighestBetween(t, levels, cur, claimant)))
      decreases cur
    {
      if Level(levels, cur) > best {
        best := Level(levels, cur);
      }
      if cur !in t.parent {
        break;
      }
      cur := t.parent[cur];
    }
    if best <= 0 {
      return 0;
    }
    rate := RateForLevel(p, best);
  }

  /** What is left to visit completes the collected ids to the whole subtree. */
  ghost predicate Collecting(t: Tree, root: nat, out: seq<nat>, stack: seq<nat>)
    requires t.Valid() && root < t.Bound()
  {
    t.Listed(stack) && t.SubtreeOrder(root) == out + t.Visit(stack)
  }

  lemma CollectStep(t: Tree, root: nat, out: seq<nat>, stack: seq<nat>, n: nat, rest: seq<nat>)
    requires t.Valid() && root < t.Bound() && stack != [] && Collecting(t, root, out, stack)
    requires n == stack[|stack| - 1] && rest == stack[..|stack| - 1]
    ensures Collecting(t, root, out + [n], rest + t.Kids(n))
    ensures |t.Nodes(rest + t.Kids(n))| < |t.Nodes(stack)|
  {
    t.NodesLast(stack);
    Reassociate(out, n, t.Visit(rest + t.Kids(n)));
  }

  lemma Reassociate(a: seq<nat>, n: nat, b: seq<nat>)
    ensures (a + [n]) + b == a + ([n] + b)
  {
  }

  method CollectSubtreeIDs(t: Tree, root: nat) returns (out: seq<nat>)
    requires t.Valid() && root < t.Bound()
    ensures out == t.SubtreeOrder(root)
  {
    t.KidsAbove(root);
    out := [root];
    var stack := t.Kids(root);
    while |stack| > 0
      invariant Collecting(t, root, out, stack)
      decreases |t.Nodes(stack)|
    {
      var n := stack[|stack| - 1];
      var rest := stack[..|stack| - 1];
      CollectStep(t, root, out, stack, n, rest);
      out := out + [n];
      stack := rest + t.Kids(n);
    }
  }

  /** Lines of one source, piece by piece. */
  method ListSourceLines(p: Params, x: nat, ps: seq<Piece>, diff: int) returns (lines: seq<Line>)
    requires p.scale > 0
    ensures lines == SourceLines(p, x, ps, diff)
  {
    assert SourceLines(p, x, [], diff) == [];
    assert ps[0..] == ps && ps[|ps|..] == [];
    hide SourceLines;
    lines := [];
    for k := 0 to |ps|
      invariant lines + SourceLines(p, x, ps[k..], diff) == SourceLines(p, x, ps, diff)
    {
      SourceLinesStep(p, x, ps, k, diff);
      var s := ps[k].interest;
      if s <= 0 || diff <= 0 {
        continue;
      }
      var amount := RoundDiv(s * diff, p.scale);
      if amount <= 0 {
        continue;
      }
      lines := lines + [Line(x, ps[k].order, amount, s, ps[k].buy, ps[k].ratePercent, diff)];
    }
  }

  lemma SourceLinesStep(p: Params, x: nat, ps: seq<Piece>, k: nat, diff: int)
    requires p.scale > 0 && k < |ps|
    ensures var amount := Share(p, ps[k].interest, diff);
            SourceLines(p, x, ps[k..], diff) ==
            (if amount > 0 then [Line(x, ps[k].order, amount, ps[k].interest, ps[k].buy, ps[k].ratePercent, diff)] else [])
            + SourceLines(p, x, ps[k + 1..], diff)
  {
    assert ps[k..][1..] == ps[k + 1..];
  }

  /** Lines of one leg.  The direct referral's own yield skips break and comparison. */
  method ListLegLines(p: Params, t: Tree, levels: Levels, pieces: Pieces, claimant: nat, legRoot: nat, ids: seq<nat>)
    returns (lines: seq<Line>)
    requires p.scale > 0 && t.Rooted()
    requires legRoot in t.parent && t.parent[legRoot] == claimant
    requires p.RateFor(Level(levels, claimant)) > 0
    ensures lines == LinesAlong(p, t, levels, pieces, claimant, ids)
  {
    var selfLevel := Level(levels, claimant);
    var ru := RateForLevel(p, selfLevel);
    lines := [];
    for j := 0 to |ids|
      invariant lines == LinesAlong(p, t, levels, pieces, claimant, ids[..j])
    {
      var x := ids[j];
      LinesAlongSnoc(p, t, levels, pieces, claimant, ids[..j], x);
      assert ids[..j + 1] == ids[..j] + [x];
      NoGapNoLines(p, x, PiecesAt(pieces, x));
      var diff := ru;
      if x == legRoot {
        DirectReferralRate(p, t, levels, claimant, x);
      } else {
        var broken := UnderCommunityBreak(t, levels, x, claimant, selfLevel);
        if broken {
          continue;
        }
        var gov := MaxGradedRateBetween(p, t, levels, x, claimant);
        diff := ru - gov;
      }
      var more := ListSourceLines(p, x, PiecesAt(pieces, x), Max(0, diff));
      lines := lines + more;
    }
    assert ids[..|ids|] == ids;
  }

  lemma LinesAlongSnoc(p: Params, t: Tree, levels: Levels, pieces: Pieces, u: nat, order: seq<nat>, x: nat)
    requires p.scale > 0 && t.Rooted()
    ensures LinesAlong(p, t, levels, pieces, u, order + [x])
         == LinesAlong(p, t, levels, pieces, u, order)
            + SourceLines(p, x, PiecesAt(pieces, x), GapRate(p, t, levels, u, x))
  {
    LinesAlongAppend(p, t, levels, pieces, u, order, [x]);
    assert [x][1..] == [];
  }

  lemma {:induction false} NoGapNoLines(p: Params, x: nat, ps: seq<Piece>)
    requires p.scale > 0
    ensures SourceLines(p, x, ps, 0) == []
  {
    if ps != [] {
      NoGapNoLines(p, x, ps[1..]);
    }
  }

  lemma {:induction false} UngradedNoLines(p: Params, t: Tree, levels: Levels, pieces: Pieces, u: nat, order: seq<nat>)
    requires p.scale > 0 && t.Rooted() && p.RateFor(Level(levels, u)) <= 0
    ensures LinesAlong(p, t, levels, pieces, u, order) == []
  {
    if order != [] {
      NoGapNoLines(p, order[0], PiecesAt(pieces, order[0]));
      UngradedNoLines(p, t, levels, pieces, u, order[1..]);
    }
  }

  /** ListCommunityBaseLinesFromPieces. */
  method ListCommunityBaseLines(p: Params, t: Tree, levels: Levels, pieces: Pieces, claimant: nat) returns (lines: seq<Line>)
    requires p.scale > 0 && t.Valid()
    ensures lines == BaseLines(p, t, levels, pieces, claimant)
  {
    var ru := RateForLevel(p, Level(levels, claimant));
    if ru <= 0 {
      UngradedNoLines(p, t, levels, pieces, claimant, t.DownlineOrder(claimant));
      return [];
    }
    lines := ListAllLegs(p, t, levels, pieces, claimant);
  }

  method ListAllLegs(p: Params, t: Tree, levels: Levels, pieces: Pieces, claimant: nat) returns (lines: seq<Line>)
    requires p.scale > 0 && t.Valid() && p.RateFor(Level(levels, claimant)) > 0
    ensures lines == BaseLines(p, t, levels, pieces, claimant)
  {
    var legs := t.Kids(claimant);
    t.KidsAbove(claimant);
    hide LegsDone, BaseLines, LinesAlong, Tree.SubtreeOrder;
    LegsStart(p, t, levels, pieces, claimant);
    lines := [];
    ghost var left := legs;
    for i := 0 to |legs|
      invariant left == legs[i..]
      invariant LegsDone(p, t, levels, pieces, claimant, left, lines)
    {
      var leg := legs[i];
      assert leg == left[0] && leg in legs;
      LegStep(p, t, levels, pieces, claimant, left, lines);
      left := left[1..];
      var ids := CollectSubtreeIDs(t, leg);
      var more := ListLegLines(p, t, levels, pieces, claimant, leg, ids);
      lines := lines + more;
    }
    LegsEnd(p, t, levels, pieces, claimant, lines);
  }

  lemma LegsStart(p: Params, t: Tree, levels: Levels, pieces: Pieces, u: nat)
    requires p.scale > 0 && t.Valid()
    ensures LegsDone(p, t, levels, pieces, u, t.Kids(u), [])
  {
    t.KidsAbove(u);
  }

  lemma LegsEnd(p: Params, t: Tree, levels: Levels, pieces: Pieces, u: nat, lines: seq<Line>)
    requires p.scale > 0 && t.Valid() && LegsDone(p, t, levels, pieces, u, [], lines)
    ensures lines == BaseLines(p, t, levels, pieces, u)
  {
    assert lines + [] == lines;
  }

  /** The lines so far and the legs still to walk make up the claimant's base lines. */
  ghost predicate LegsDone(p: Params, t: Tree, levels: Levels, pieces: Pieces, u: nat, legs: seq<nat>, lines: seq<Line>)
    requires p.scale > 0 && t.Valid()
  {
    && t.Listed(legs)
    && lines + LinesAlong(p, t, levels, pieces, u, t.LegsOrder(legs)) == BaseLines(p, t, levels, pieces, u)
  }

  lemma LegStep(p: Params, t: Tree, levels: Levels, pieces: Pieces, u: nat, legs: seq<nat>, lines: seq<Line>)
    requires p.scale > 0 && t.Valid() && legs != []
    requires LegsDone(p, t, levels, pieces, u, legs, lines)
    ensures legs[0] < t.Bound()
    ensures LegsDone(p, t, levels, pieces, u, legs[1..],
                     lines + LinesAlong(p, t, levels, pieces, u, t.SubtreeOrder(legs[0])))
  {
    assert legs[0] in legs && forall x :: x in legs[1..] ==> x in legs;
    var a, b := t.SubtreeOrder(legs[0]), t.LegsOrder(legs[1..]);
    LinesAlongAppend(p, t, levels, pieces, u, a, b);
    ReassociateLines(lines, LinesAlong(p, t, levels, pieces, u, a), LinesAlong(p, t, levels, pieces, u, b));
  }

  lemma ReassociateLines(a: seq<Line>, b: seq<Line>, c: seq<Line>)
    ensures (a + b) + c == a + (b + c)
  {
  }

  /** ListPeerLinesFromCommunityBase: the source ranges over a map, so the earners are met
      in some order that the caller cannot choose. */
  method ListPeerLines(p: Params, t: Tree, levels: Levels, got: Gains) returns (lines: seq<PeerLine>, ghost order: seq<nat>)
    requires p.scale > 0
    ensures multiset(order) == multiset(got.Keys)
    ensures lines == PeerLines(p, t, levels, got, order)
  {
    hide PeerLines;
    lines, order := [], [];
    NoEarners(p, t, levels, got);
    if p.peerRate <= 0 {
      order := SomeOrder(got.Keys);
      NoPeerRateNoLines(p, t, levels, got, order);
      return;
    }
    var todo := got.Keys;
    while todo != {}
      invariant todo <= got.Keys
      invariant multiset(order) + multiset(todo) == multiset(got.Keys)
      invariant lines == PeerLines(p, t, levels, got, order)
    {
      var from :| from in todo;
      PeerLinesSnoc(p, t, levels, got, order, from);
      TakeEarner(todo, from);
      todo, order := todo - {from}, order + [from];
      if got[from] <= 0 || !p.PeerEligible(Level(levels, from)) {
        continue;
      }
      if from !in t.parent || t.parent[from] == 0 {
        continue;
      }
      var recipient := t.parent[from];
      var recipientLevel := Level(levels, recipient);
      if recipientLevel > Level(levels, from) || !p.PeerEligible(recipientLevel) {
        continue;
      }
      var amount := RoundDiv(got[from] * p.peerRate, p.scale);
      if amount <= 0 {
        continue;
      }
      lines := lines + [PeerLine(recipient, from, amount, got[from])];
    }
  }

  lemma NoEarners(p: Params, t: Tree, levels: Levels, got: Gains)
    requires p.scale > 0
    ensures PeerLines(p, t, levels, got, []) == []
  {
  }

  lemma PeerLinesSnoc(p: Params, t: Tree, levels: Levels, got: Gains, order: seq<nat>, from: nat)
    requires p.scale > 0
    ensures PeerLines(p, t, levels, got, order + [from])
         == PeerLines(p, t, levels, got, order) + PeerLineFrom(p, t, levels, got, from)
  {
    PeerLinesAppend(p, t, levels, got, order, [from]);
    assert [from][1..] == [];
  }

  lemma TakeEarner(todo: set<nat>, from: nat)
    requires from in todo
    ensures multiset(todo) == multiset([from]) + multiset(todo - {from})
  {
  }

  ghost function SomeOrder(s: set<nat>): (order: seq<nat>)
    ensures multiset(order) == multiset(s)
  {
    if s == {} then []
    else
      var x :| x in s;
      assert multiset(s) == multiset(s - {x}) + multiset{x};
      [x] + SomeOrder(s - {x})
  }

  lemma {:induction false} NoPeerRateNoLines(p: Params, t: Tree, levels: Levels, got: Gains, order: seq<nat>)
    requires p.scale > 0 && p.peerRate <= 0
    ensures PeerLines(p, t, levels, got, order) == []
  {
    if order != [] {
      NoPeerRateNoLines(p, t, levels, got, order[1..]);
    }
  }

  lemma {:induction false} PeerLinesAppend(p: Params, t: Tree, levels: Levels, got: Gains, a: seq<nat>, b: seq<nat>)
    requires p.scale > 0
    ensures PeerLines(p, t, levels, got, a + b) == PeerLines(p, t, levels, got, a) + PeerLines(p, t, levels, got, b)
  {
    if a == [] {
      assert a + b == b;
    } else {
      assert (a + b)[1..] == a[1..] + b;
      PeerLinesAppend(p, t, levels, got, a[1..], b);
    }
  }
}
