/** ComputeAllCommunityRewards: what every user is due without any cap (community.go), in closed
    form per user although the source meets the earners in map order. */
module CommunityReport {
  import opened Arith
  import opened Sums
  import opened Forest
  import opened Params
  import opened Community
  import opened CommunityLoops

  datatype Split = Split(base: int, peer: int)

  function SplitAt(out: map<nat, Split>, u: nat): Split
  {
    if u in out then out[u] else Split(0, 0)
  }

  /** One piece a user with a positive static yield. */
  function StaticSources(todayStatic: map<nat, int>): Pieces
  {
    map x | x in todayStatic && todayStatic[x] > 0 :: [Piece(x, 0, todayStatic[x], 0, 0)]
  }

  /** Each positive yield is a source once, and nothing else is. */
  lemma ReportSources(todayStatic: map<nat, int>, x: nat)
    ensures InterestTotal(PiecesAt(StaticSources(todayStatic), x)) == if x in todayStatic then Max(0, todayStatic[x]) else 0
    ensures |PiecesAt(StaticSources(todayStatic), x)| <= 1
  {
  }

  /** One-hop peer reward that c's base pays, when c's inviter is u. */
  function PeerDueFrom(p: Params, t: Tree, levels: Levels, got: Gains, c: nat, u: nat): int
    requires p.scale > 0
  {
    if PaysPeer(p, t, levels, got, c) && t.parent[c] == u then Max(0, PeerShare(p, got[c])) else 0
  }

  /** Peer reward of u: over its direct referrals, whatever the order they are met in. */
  function PeerDue(p: Params, t: Tree, levels: Levels, got: Gains, u: nat): int
    requires p.scale > 0
  {
    Sum(t.ids, (c: nat) => PeerDueFrom(p, t, levels, got, c, u))
  }

  function PeerTo(lines: seq<PeerLine>, u: nat): int
  {
    if lines == [] then 0 else (if lines[0].recipient == u then lines[0].amount else 0) + PeerTo(lines[1..], u)
  }

  lemma {:induction false} PeerToAppend(a: seq<PeerLine>, b: seq<PeerLine>, u: nat)
    ensures PeerTo(a + b, u) == PeerTo(a, u) + PeerTo(b, u)
  {
    if a == [] {
      assert a + b == b;
    } else {
      assert (a + b)[1..] == a[1..] + b;
      PeerToAppend(a[1..], b, u);
    }
  }

  lemma {:induction false} PeerToAlong(p: Params, t: Tree, levels: Levels, got: Gains, order: seq<nat>, u: nat)
    requires p.scale > 0
    ensures PeerTo(PeerLines(p, t, levels, got, order), u) == Sum(order, (c: nat) => PeerDueFrom(p, t, levels, got, c, u))
  {
    if order != [] {
      var c, rest := order[0], order[1..];
      PeerToAlong(p, t, levels, got, rest, u);
      PeerToAppend(PeerLineFrom(p, t, levels, got, c), PeerLines(p, t, levels, got, rest), u);
      assert PeerTo(PeerLineFrom(p, t, levels, got, c), u) == PeerDueFrom(p, t, levels, got, c, u);
      SumCongruent(rest, (x: nat) => PeerDueFrom(p, t, levels, got, x, u), (x: nat) => PeerDueFrom(p, t, levels, got, x, u));
    }
  }

  lemma OnlyEarnersPay(p: Params, t: Tree, levels: Levels, got: Gains, u: nat)
    requires p.scale > 0
    ensures forall c: nat :: c !in got ==> PeerDueFrom(p, t, levels, got, c, u) == 0
  {
  }

  /** In any map order, u's peer lines add up to what its direct referrals owe it. */
  lemma PeerLinesAddUp(p: Params, t: Tree, levels: Levels, got: Gains, order: seq<nat>, u: nat)
    requires p.scale > 0 && Ascending(t.ids) && multiset(order) == multiset(got.Keys) && forall x :: x in got ==> x in t.ids
    ensures PeerTo(PeerLines(p, t, levels, got, order), u) == PeerDue(p, t, levels, got, u)
  {
    hide PeerLines, PeerDueFrom;
    var f := (c: nat) => PeerDueFrom(p, t, levels, got, c, u);
    var keep := (c: nat) => c in got;
    PeerToAlong(p, t, levels, got, order, u);
    SumCongruent(order, f, (c: nat) => PeerDueFrom(p, t, levels, got, c, u));
    forall y: nat
      ensures multiset(order)[y] == if keep(y) then multiset(t.ids)[y] else 0
    {
      AscendingCount(t.ids, y);
    }
    OnlyEarnersPay(p, t, levels, got, u);
    SumOfListing(order, t.ids, keep, f);
    SumCongruent(t.ids, (c: nat) => if keep(c) then f(c) else 0, f);
    SumCongruent(t.ids, f, (c: nat) => PeerDueFrom(p, t, levels, got, c, u));
  }

  // ---- the loop of the source ----

  lemma {:induction false} PayingTotal(lines: seq<Line>)
    requires PaidLines(lines)
    ensures LinesTotal(lines) >= |lines|
  {
    if lines != [] {
      PayingTotal(lines[1..]);
    }
  }

  /** Base totals of the users that have any. */
  ghost function BaseTotals(p: Params, t: Tree, levels: Levels, pieces: Pieces, users: seq<nat>): Gains
    requires p.scale > 0 && t.Rooted()
  {
    map u | u in users && ClaimTotal(p, t, levels, pieces, u) > 0 :: ClaimTotal(p, t, levels, pieces, u)
  }

  lemma BaseTotalsSnoc(p: Params, t: Tree, levels: Levels, pieces: Pieces, users: seq<nat>, u: nat, lines: seq<Line>)
    requires p.scale > 0 && t.Valid() && lines == BaseLines(p, t, levels, pieces, u)
    ensures LinesTotal(lines) >= |lines|
    ensures BaseTotals(p, t, levels, pieces, users + [u])
         == if lines == [] then BaseTotals(p, t, levels, pieces, users)
            else BaseTotals(p, t, levels, pieces, users)[u := LinesTotal(lines)]
  {
    hide ClaimTotal, BaseLines;
    BaseLinesTotal(p, t, levels, pieces, u);
    LinesPay(p, t, levels, pieces, u);
    PayingTotal(lines);
  }

  lemma LinesPay(p: Params, t: Tree, levels: Levels, pieces: Pieces, u: nat)
    requires p.scale > 0 && t.Valid()
    ensures PaidLines(BaseLines(p, t, levels, pieces, u))
  {
    LinesAlongPaid(p, t, levels, pieces, u, t.DownlineOrder(u));
  }

  /** out reports the base gains of got and no peer reward yet. */
  ghost predicate Reports(out: map<nat, Split>, got: Gains)
  {
    forall u: nat :: SplitAt(out, u) == Split(Gained(got, u), 0)
  }

  lemma ReportsStep(out: map<nat, Split>, got: Gains, u: nat, amount: int)
    requires Reports(out, got)
    ensures Reports(out[u := SplitAt(out, u).(base := SplitAt(out, u).base + amount)], got[u := Gained(got, u) + amount])
  {
    var out' := out[u := SplitAt(out, u).(base := SplitAt(out, u).base + amount)];
    var got' := got[u := Gained(got, u) + amount];
    forall v: nat
      ensures SplitAt(out', v) == Split(Gained(got', v), 0)
    {
      assert SplitAt(out, v) == Split(Gained(got, v), 0);
    }
  }

  method AddLines(u: nat, lines: seq<Line>, out0: map<nat, Split>, got0: Gains) returns (out: map<nat, Split>, got: Gains)
    requires Reports(out0, got0) && u !in got0
    ensures Reports(out, got) && got == if lines == [] then got0 else got0[u := LinesTotal(lines)]
  {
    out, got := out0, got0;
    for k := 0 to |lines|
      invariant Reports(out, got)
      invariant got == if k == 0 then got0 else got0[u := LinesTotal(lines[..k])]
    {
      LinesTotalSnoc(lines, k);
      ReportsStep(out, got, u, lines[k].amount);
      var s := SplitAt(out, u);
      out := out[u := s.(base := s.base + lines[k].amount)];
      got := got[u := Gained(got, u) + lines[k].amount];
    }
    assert lines[..|lines|] == lines;
  }

  lemma LinesTotalSnoc(lines: seq<Line>, k: nat)
    requires k < |lines|
    ensures LinesTotal(lines[..0]) == 0 && LinesTotal(lines[..k + 1]) == LinesTotal(lines[..k]) + lines[k].amount
  {
    assert lines[..k + 1] == lines[..k] + [lines[k]] && [lines[k]][1..] == [];
    LinesTotalAppend(lines[..k], [lines[k]]);
  }

  lemma PeerToSnoc(lines: seq<PeerLine>, k: nat, u: nat)
    requires k < |lines|
    ensures PeerTo(lines[..0], u) == 0
    ensures PeerTo(lines[..k + 1], u) == PeerTo(lines[..k], u) + if lines[k].recipient == u then lines[k].amount else 0
  {
    assert lines[..k + 1] == lines[..k] + [lines[k]] && [lines[k]][1..] == [];
    PeerToAppend(lines[..k], [lines[k]], u);
  }

  /** What every user is due: base claims in full, and a peer reward on the direct referrals' base. */
  method ComputeAllCommunityRewards(p: Params, t: Tree, levels: Levels, todayStatic: map<nat, int>)
    returns (out: map<nat, Split>)
    requires p.scale > 0 && t.Valid()
    ensures var pieces := StaticSources(todayStatic);
            forall u: nat ::
              && SplitAt(out, u).base == Gained(BaseTotals(p, t, levels, pieces, t.ids), u)
              && SplitAt(out, u).peer == PeerDue(p, t, levels, BaseTotals(p, t, levels, pieces, t.ids), u)
  {
    assert t.Rooted();
    hide Tree.Valid, Tree.Rooted, StaticSources, BaseTotals, Reports, PeerDue;
    var pieces := StaticSources(todayStatic);
    NoTotals(p, t, levels, pieces);
    out := map[];
    var got: Gains := map[];
    for i := 0 to |t.ids|
      invariant Reports(out, got) && got == BaseTotals(p, t, levels, pieces, t.ids[..i])
    {
      out, got := AddClaimant(p, t, levels, pieces, i, out, got);
    }
    assert t.ids[..|t.ids|] == t.ids;
    TotalsListed(p, t, levels, pieces, t.ids);
    out := AddPeers(p, t, levels, got, out);
  }

  method AddClaimant(p: Params, t: Tree, levels: Levels, pieces: Pieces, i: nat, out0: map<nat, Split>, got0: Gains)
    returns (out: map<nat, Split>, got: Gains)
    requires p.scale > 0 && t.Valid() && i < |t.ids|
    requires Reports(out0, got0) && got0 == BaseTotals(p, t, levels, pieces, t.ids[..i])
    ensures Reports(out, got) && got == BaseTotals(p, t, levels, pieces, t.ids[..i + 1])
  {
    hide BaseLines, BaseTotals, Reports, LinesTotal;
    NextClaimant(p, t, levels, pieces, i);
    hide Tree.Valid, Tree.Rooted;
    var u := t.ids[i];
    var lines := ListCommunityBaseLines(p, t, levels, pieces, u);
    out, got := AddLines(u, lines, out0, got0);
  }

  lemma NextClaimant(p: Params, t: Tree, levels: Levels, pieces: Pieces, i: nat)
    requires p.scale > 0 && t.Valid() && i < |t.ids|
    ensures var u, before := t.ids[i], BaseTotals(p, t, levels, pieces, t.ids[..i]);
            var lines := BaseLines(p, t, levels, pieces, u);
            && u !in before
            && BaseTotals(p, t, levels, pieces, t.ids[..i + 1]) == if lines == [] then before else before[u := LinesTotal(lines)]
  {
    assert t.Rooted();
    NotYetListed(t, i);
    hide Tree.Valid, Tree.Rooted, ClaimTotal, BaseLines, BaseTotals, LinesTotal;
    TotalsListed(p, t, levels, pieces, t.ids[..i]);
    assert t.ids[..i + 1] == t.ids[..i] + [t.ids[i]];
    BaseTotalsSnoc(p, t, levels, pieces, t.ids[..i], t.ids[i], BaseLines(p, t, levels, pieces, t.ids[i]));
  }

  lemma NoTotals(p: Params, t: Tree, levels: Levels, pieces: Pieces)
    requires p.scale > 0 && t.Rooted()
    ensures BaseTotals(p, t, levels, pieces, []) == map[] && Reports(map[], map[])
  {
  }

  lemma TotalsListed(p: Params, t: Tree, levels: Levels, pieces: Pieces, users: seq<nat>)
    requires p.scale > 0 && t.Rooted()
    ensures forall x :: x in BaseTotals(p, t, levels, pieces, users) ==> x in users
  {
  }

  lemma NotYetListed(t: Tree, i: nat)
    requires t.Valid() && i < |t.ids|
    ensures t.ids[i] !in t.ids[..i]
  {
  }

  method AddPeers(p: Params, t: Tree, levels: Levels, got: Gains, out0: map<nat, Split>) returns (out: map<nat, Split>)
    requires p.scale > 0 && t.Valid() && Reports(out0, got) && forall x :: x in got ==> x in t.ids
    ensures forall u: nat :: SplitAt(out, u) == Split(Gained(got, u), PeerDue(p, t, levels, got, u))
  {
    hide PeerLines, PeerDue;
    var lines;
    ghost var order;
    lines, order := ListPeerLines(p, t, levels, got);
    out := out0;
    for k := 0 to |lines|
      invariant forall u: nat :: SplitAt(out, u) == Split(Gained(got, u), PeerTo(lines[..k], u))
    {
      forall u: nat
        ensures PeerTo(lines[..k + 1], u) == PeerTo(lines[..k], u) + if lines[k].recipient == u then lines[k].amount else 0
      {
        PeerToSnoc(lines, k, u);
      }
      var s := SplitAt(out, lines[k].recipient);
      out := out[lines[k].recipient := s.(peer := s.peer + lines[k].amount)];
    }
    assert lines[..|lines|] == lines;
    forall u: nat
      ensures PeerTo(lines, u) == PeerDue(p, t, levels, got, u)
    {
      PeerLinesAddUp(p, t, levels, got, order, u);
    }
  }
}
