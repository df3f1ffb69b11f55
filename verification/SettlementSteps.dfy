/** What one round of each settlement loop of record.go does, for the loop invariants of the
    use cases. */
module SettlementSteps {
  import opened Arith
  import opened Forest
  import opened Params
  import opened Orders
  import opened Community
  import opened CommunityReport
  import opened Volumes
  import opened Tables
  import opened Settlement
  import opened Accrual
  import opened Database

  /** One round of the fill loop moves progress by the chunk it takes off the amount. */
  lemma FillRound(orders: seq<Order>, u: nat, amount: int, k: nat, o: Order)
    requires amount > 0 && EarliestActive(orders, u) == Some(k)
    requires o == orders[k].Fed(Min(amount, orders[k].Room()))
    ensures Fill(orders[k := o], u, amount - Min(amount, orders[k].Room())) == Fill(orders, u, amount)
    ensures amount - Min(amount, orders[k].Room()) > 0 ==> ActiveCount(orders[k := o], u) < ActiveCount(orders, u)
    ensures amount - Min(amount, orders[k].Room()) >= 0
  {
    FillEarliest(orders, u, amount, k);
    ActiveCountUpdate(orders, u, k, o);
  }

  /** Yields grouped by user, as the settle loop collects them. */
  ghost predicate Grouped(m: map<nat, seq<Piece>>, pieces: seq<Piece>)
  {
    && (forall x: nat :: PiecesAt(m, x) == PiecesOf(pieces, x))
    && (forall x :: x in m ==> m[x] != [])
  }

  /** Yields added up by user. */
  ghost predicate Summed(m: map<nat, int>, pieces: seq<Piece>)
  {
    forall x: nat :: SumAt(m, x) == InterestTotal(PiecesOf(pieces, x))
  }

  function SumAt(m: map<nat, int>, x: nat): int
  {
    if x in m then m[x] else 0
  }

  lemma SummedAppend(m: map<nat, int>, pieces: seq<Piece>, piece: Piece)
    requires Summed(m, pieces)
    ensures Summed(m[piece.user := SumAt(m, piece.user) + piece.interest], pieces + [piece])
  {
    var m' := m[piece.user := SumAt(m, piece.user) + piece.interest];
    assert (pieces + [piece])[..|pieces|] == pieces && [piece][1..] == [];
    forall x: nat
      ensures SumAt(m', x) == InterestTotal(PiecesOf(pieces + [piece], x))
    {
      assert SumAt(m, x) == InterestTotal(PiecesOf(pieces, x));
      assert InterestTotal([piece]) == piece.interest && PiecesOf(pieces, x) + [] == PiecesOf(pieces, x);
      InterestTotalAppend(PiecesOf(pieces, x), [piece]);
    }
  }

  lemma GroupedAppend(m: map<nat, seq<Piece>>, pieces: seq<Piece>, piece: Piece)
    requires Grouped(m, pieces)
    ensures Grouped(m[piece.user := PiecesAt(m, piece.user) + [piece]], pieces + [piece])
  {
    var m' := m[piece.user := PiecesAt(m, piece.user) + [piece]];
    assert (pieces + [piece])[..|pieces|] == pieces;
    forall x: nat
      ensures PiecesAt(m', x) == PiecesOf(pieces + [piece], x)
    {
      assert PiecesAt(m, x) == PiecesOf(pieces, x);
    }
  }

  lemma EarliestIsActive(orders: seq<Order>, u: nat)
    ensures EarliestActive(orders, u).Some? ==>
              EarliestActive(orders, u).value < |orders| && orders[EarliestActive(orders, u).value].ActiveFor(u)
  {
  }

  lemma FillEnds(orders: seq<Order>, u: nat, remaining: int)
    requires remaining <= 0 || EarliestActive(orders, u).None?
    ensures Fill(orders, u, remaining) == (orders, remaining)
  {
    FillNothing(orders, u, remaining);
  }

  /** Child lists gain a newly met user at the end. */
  lemma ChildListSnoc(ids: seq<nat>, parent: map<nat, nat>, x: nat, q: nat)
    ensures ChildList(ids + [x], parent, q)
         == ChildList(ids, parent, q) + if x in parent && parent[x] == q then [x] else []
  {
    ChildListAppend(ids, [x], parent, q);
    assert [x][1..] == [];
  }

  /** The child map built from the users met so far. */
  ghost predicate ChildrenOf(children: map<nat, seq<nat>>, parent: map<nat, nat>, ids: seq<nat>)
  {
    && (forall q :: q in children ==> children[q] == ChildList(ids, parent, q))
    && (forall q: nat :: q !in children ==> ChildList(ids, parent, q) == [])
    && (forall q :: q in children ==> exists x :: x in ids && x in parent && parent[x] == q)
  }

  lemma ChildrenStep(children: map<nat, seq<nat>>, parent: map<nat, nat>, ids: seq<nat>, x: nat)
    requires ChildrenOf(children, parent, ids)
    ensures x !in parent ==> ChildrenOf(children, parent, ids + [x])
    ensures x in parent ==>
              ChildrenOf(children[parent[x] := (if parent[x] in children then children[parent[x]] else []) + [x]], parent, ids + [x])
  {
    forall q: nat
      ensures ChildList(ids + [x], parent, q)
           == ChildList(ids, parent, q) + if x in parent && parent[x] == q then [x] else []
    {
      ChildListSnoc(ids, parent, x, q);
    }
    assert forall y :: y in ids ==> y in ids + [x];
    assert x in ids + [x];
  }

  /** Once every user is met, the child map is the one of the invite tree. */
  lemma ChildrenDone(children: map<nat, seq<nat>>, parent: map<nat, nat>, ids: seq<nat>)
    requires ChildrenOf(children, parent, ids) && forall x :: x in parent ==> x in ids
    ensures children == map q | q in parent.Values :: ChildList(ids, parent, q)
  {
    forall q | q in parent.Values
      ensures q in children
    {
      var x :| x in parent && parent[x] == q;
      ChildListMembers(ids, parent, q);
      assert x in ChildList(ids, parent, q);
    }
  }

  lemma ChildrenAreTree(children: map<nat, seq<nat>>, w: World)
    requires w.Valid() && ChildrenOf(children, w.Parents(), w.ids)
    ensures Forest.Tree.Tree(w.ids, w.Parents(), children) == w.Tree()
  {
    hide ChildrenOf, World.Valid, World.Parents;
    LinksListed(w);
    ChildrenDone(children, w.Parents(), w.ids);
  }

  lemma InviterExists(w: World, x: nat)
    requires w.Valid() && x in w.users && w.users[x].inviter.Some?
    ensures w.users[x].inviter.value in w.users
  {
  }

  lemma CreditKeepsLinks(w: World, u: nat, amount: int, kind: Kind)
    requires w.Valid()
    ensures Credit(w, u, amount, kind).Valid()
    ensures Credit(w, u, amount, kind).users.Keys == w.users.Keys
    ensures forall x :: x in w.users ==> Credit(w, u, amount, kind).users[x].inviter == w.users[x].inviter
  {
    CreditShape(w, u, amount, kind);
    SameShapeValid(w, Credit(w, u, amount, kind));
  }

  lemma SettleOrderValid(p: Params, r: Run, i: nat)
    requires p.scale > 0 && r.w.Valid()
    ensures SettleOrder(p, r, i).w.Valid()
  {
    SettleOrderShape(p, r, i);
    SameShapeValid(r.w, SettleOrder(p, r, i).w);
  }

  lemma PayInterestValid(p: Params, w: World, i: nat, interest: int)
    requires w.Valid() && i < |w.orders|
    ensures PayInterest(p, w, i, interest).Valid()
  {
    SameShapeValid(w, PayInterest(p, w, i, interest));
  }

  // ---- regrading ----

  /** Users after the first of ids were regraded. */
  ghost predicate GradedUpTo(p: Params, w: World, ids: seq<nat>, users: map<nat, User>, levels: Levels)
    requires w.Valid()
  {
    && users == (map x | x in w.users ::
                   if x in ids then w.users[x].(level := GradeOf(p, w, x), volume := VolumeOf(w, x)) else w.users[x])
    && levels == (map x | x in w.users && x in ids :: GradeOf(p, w, x))
  }

  lemma GradedStart(p: Params, w: World)
    requires w.Valid()
    ensures GradedUpTo(p, w, [], w.users, map[])
  {
  }

  lemma GradedStep(p: Params, w: World, ids: seq<nat>, u: nat, users: map<nat, User>, levels: Levels, level: nat, volume: int)
    requires w.Valid() && u in w.users && GradedUpTo(p, w, ids, users, levels)
    requires level == GradeOf(p, w, u) && volume == VolumeOf(w, u)
    ensures GradedUpTo(p, w, ids + [u], users[u := w.users[u].(level := level, volume := volume)], levels[u := level])
  {
    hide GradeOf, VolumeOf, World.Valid;
  }

  lemma GradedRow(p: Params, w: World, ids: seq<nat>, u: nat, users: map<nat, User>, levels: Levels)
    requires w.Valid() && u in w.users && u !in ids && GradedUpTo(p, w, ids, users, levels)
    ensures u in users && users[u] == w.users[u]
  {
    hide GradeOf, VolumeOf, World.Valid;
  }

  lemma GradedEnd(p: Params, w: World, users: map<nat, User>, levels: Levels)
    requires w.Valid() && GradedUpTo(p, w, w.ids, users, levels)
    ensures w.(users := users) == Graded(p, w) && levels == Grades(p, w)
  {
    hide GradeOf, VolumeOf;
    assert forall x :: x in w.users ==> x in w.ids;
  }

  // ---- community phases ----

  /** Paying the lines from position k on finishes what paying them all does. */
  ghost predicate PayingLines(before: World, now: World, u: nat, lines: seq<Line>, k: nat, paid: int, got: Gains, was: Gains)
    requires k <= |lines|
  {
    && CreditAll(now, LineGrants(u, lines[k..]), CommunityBase) == CreditAll(before, LineGrants(u, lines), CommunityBase)
    && paid >= 0
    && paid + AppliedLines(now, u, lines[k..]) == AppliedLines(before, u, lines)
    && got == if paid > 0 then was[u := (if u in was then was[u] else 0) + paid] else was
  }

  lemma PayingStart(before: World, u: nat, lines: seq<Line>, got: Gains)
    ensures PayingLines(before, before, u, lines, 0, 0, got, got)
  {
    assert lines[0..] == lines;
  }

  lemma PayingStep(before: World, now: World, u: nat, lines: seq<Line>, k: nat, paid: int, got: Gains, was: Gains)
    requires k < |lines| && PayingLines(before, now, u, lines, k, paid, got, was)
    ensures var applied := Applied(now, u, lines[k].amount);
            && applied >= 0
            && PayingLines(before, Credit(now, u, lines[k].amount, CommunityBase), u, lines, k + 1, paid + applied,
                           if applied <= 0 then got else got[u := (if u in got then got[u] else 0) + applied], was)
  {
    hide Credit, Applied;
    var applied := Applied(now, u, lines[k].amount);
    AppliedIsCapped(now, u, lines[k].amount);
    assert lines[k..][1..] == lines[k + 1..];
    var g := Grant(u, lines[k].amount);
    assert LineGrants(u, lines[k..]) == [g] + LineGrants(u, lines[k + 1..]);
    assert ([g] + LineGrants(u, lines[k + 1..]))[1..] == LineGrants(u, lines[k + 1..]);
    var after := Credit(now, u, lines[k].amount, CommunityBase);
  }

  lemma PayingEnd(before: World, now: World, u: nat, lines: seq<Line>, paid: int, got: Gains, was: Gains)
    requires PayingLines(before, now, u, lines, |lines|, paid, got, was)
    ensures Paid(now, got) == PayClaimant(Paid(before, was), u, lines)
  {
    assert lines[|lines|..] == [];
    assert AppliedLines(now, u, []) == 0;
    assert CreditAll(now, LineGrants(u, []), CommunityBase) == now;
  }

  lemma PeerGrantsFrom(lines: seq<PeerLine>, k: nat, w: World)
    requires k < |lines|
    ensures CreditAll(w, PeerGrants(lines[k..]), Peer)
         == CreditAll(Credit(w, lines[k].recipient, lines[k].amount, Peer), PeerGrants(lines[k + 1..]), Peer)
  {
    hide Credit;
    assert lines[k..][1..] == lines[k + 1..];
    var g := Grant(lines[k].recipient, lines[k].amount);
    assert ([g] + PeerGrants(lines[k + 1..]))[1..] == PeerGrants(lines[k + 1..]);
  }

  // ---- personal volumes ----

  /** The sums per ordering user, completed with zeros for the users met so far. */
  ghost predicate Completed(orders: seq<Order>, personal: Personal, met: seq<nat>)
  {
    && (forall x: nat :: x in personal <==> HasOrder(orders, x) || x in met)
    && forall x :: x in personal ==> personal[x] == AmountTotal(orders, x)
  }

  lemma CompletedStep(orders: seq<Order>, personal: Personal, met: seq<nat>, x: nat)
    requires Completed(orders, personal, met)
    ensures Completed(orders, if x in personal then personal else personal[x := 0], met + [x])
  {
    if x !in personal {
      assert forall i :: 0 <= i < |orders| ==> orders[i].user != x;
      NoOrdersNoProgress(orders, x);
    }
  }

  lemma CompletedEnd(w: World, personal: Personal)
    requires w.Valid() && Completed(w.orders, personal, w.ids)
    ensures personal == PersonalVolumes(w)
  {
    assert personal.Keys == w.users.Keys;
  }

  ghost predicate LinksMet(parent: map<nat, nat>, links: map<nat, nat>, met: seq<nat>)
  {
    parent == map x | x in links && x in met :: links[x]
  }

  lemma LinksStep(parent: map<nat, nat>, links: map<nat, nat>, met: seq<nat>, x: nat)
    requires LinksMet(parent, links, met)
    ensures LinksMet(if x in links then parent[x := links[x]] else parent, links, met + [x])
  {
  }

  lemma LinksEnd(parent: map<nat, nat>, links: map<nat, nat>, ids: seq<nat>)
    requires LinksMet(parent, links, ids) && forall x :: x in links ==> x in ids
    ensures parent == links
  {
  }

  lemma NothingToPay(w: World, lines: seq<PeerLine>)
    ensures CreditAll(w, PeerGrants(lines[|lines|..]), Peer) == w
  {
  }

  /** The three maps of settleCommunity after the first n users. */
  ghost predicate Loading(w: World, n: nat, children: map<nat, seq<nat>>, parent: map<nat, nat>, personal: Personal)
  {
    && n <= |w.ids|
    && ChildrenOf(children, w.Parents(), w.ids[..n])
    && LinksMet(parent, w.Parents(), w.ids[..n])
    && Completed(w.orders, personal, w.ids[..n])
  }

  lemma LoadStarts(w: World, personal: Personal)
    requires personal == map u | u in Owners(w.orders) :: AmountTotal(w.orders, u)
    ensures Loading(w, 0, map[], map[], personal)
  {
  }

  lemma LoadStep(w: World, n: nat, children: map<nat, seq<nat>>, parent: map<nat, nat>, personal: Personal)
    requires w.Valid() && n < |w.ids| && Loading(w, n, children, parent, personal)
    ensures var id := w.ids[n];
            && id in w.users
            && var personal' := if id in personal then personal else personal[id := 0];
            match w.users[id].inviter
            case None => Loading(w, n + 1, children, parent, personal')
            case Some(q) =>
              Loading(w, n + 1, children[q := (if q in children then children[q] else []) + [id]], parent[id := q], personal')
  {
    var links, met, id := w.Parents(), w.ids[..n], w.ids[n];
    ListedUser(w, n);
    assert w.ids[..n + 1] == met + [id];
    ChildrenStep(children, links, met, id);
    CompletedStep(w.orders, personal, met, id);
    LinksStep(parent, links, met, id);
    hide World.Valid, World.Parents, ChildrenOf, LinksMet, Completed;
  }

  lemma LoadEnds(w: World, children: map<nat, seq<nat>>, parent: map<nat, nat>, personal: Personal)
    requires w.Valid() && Loading(w, |w.ids|, children, parent, personal)
    ensures Forest.Tree.Tree(w.ids, parent, children) == w.Tree() && personal == PersonalVolumes(w)
  {
    hide World.Valid, World.Parents, World.Tree, ChildrenOf, LinksMet, Completed, PersonalVolumes;
    assert w.ids[..|w.ids|] == w.ids;
    LinksListed(w);
    LinksEnd(parent, w.Parents(), w.ids);
    ChildrenAreTree(children, w);
    CompletedEnd(w, personal);
  }

  lemma ListedUser(w: World, i: nat)
    requires w.Valid() && i < |w.ids|
    ensures w.ids[i] in w.users && w.ids[i] !in w.ids[..i]
    ensures w.ids[i] in w.Parents() <==> w.users[w.ids[i]].inviter.Some?
    ensures w.ids[i] in w.Parents() ==> w.Parents()[w.ids[i]] == w.users[w.ids[i]].inviter.value
  {
    assert w.ids[i] in w.ids;
  }

  lemma LinksListed(w: World)
    requires w.Valid()
    ensures forall x :: x in w.Parents() ==> x in w.ids
  {
  }

  lemma GradeMeans(p: Params, w: World, u: nat)
    requires w.Valid() && u in w.users
    ensures w.Tree().Rooted()
    ensures VolumeOf(w, u) == GradingVolume(w.Tree(), PersonalVolumes(w), u)
    ensures GradeOf(p, w, u) == if w.users[u].levelLocked then w.users[u].level else p.LevelFor(VolumeOf(w, u))
  {
    w.TreeValid();
  }

  lemma RegradeStep(p: Params, w: World, i: nat, users: map<nat, User>, levels: Levels)
    requires w.Valid() && i < |w.ids| && GradedUpTo(p, w, w.ids[..i], users, levels)
    ensures w.Tree().Rooted()
    ensures w.ids[i] in users && w.ids[i] in w.users && users[w.ids[i]] == w.users[w.ids[i]]
    ensures var u := w.ids[i];
            var volume := GradingVolume(w.Tree(), PersonalVolumes(w), u);
            var level := if w.users[u].levelLocked then w.users[u].level else p.LevelFor(volume);
            GradedUpTo(p, w, w.ids[..i + 1], users[u := w.users[u].(level := level, volume := volume)], levels[u := level])
  {
    hide GradingVolume, GradeOf, VolumeOf, World.Valid, World.Tree, PersonalVolumes, GradedUpTo;
    var u := w.ids[i];
    ListedUser(w, i);
    GradedRow(p, w, w.ids[..i], u, users, levels);
    GradeMeans(p, w, u);
    GradedStep(p, w, w.ids[..i], u, users, levels, GradeOf(p, w, u), VolumeOf(w, u));
    assert w.ids[..i + 1] == w.ids[..i] + [u];
  }

  // ---- the settlement as a whole ----

  /** Yields that pay community rewards; without any piece, one per user's total. */
  function Sources(todayStatic: map<nat, int>, staticPieces: map<nat, seq<Piece>>): Pieces
  {
    if staticPieces == map[] then StaticSources(todayStatic)
    else map x | x in staticPieces && x in todayStatic :: staticPieces[x]
  }

  /** after is w regraded, with all base and peer rewards on the given yields paid. */
  ghost predicate CommunitySettled(p: Params, w: World, pieces: Pieces, order: seq<nat>, after: World)
    requires p.scale > 0 && w.Valid()
  {
    w.TreeValid();
    var base := PayBase(p, w.Tree(), Grades(p, w), pieces, Graded(p, w), w.ids);
    && multiset(order) == multiset(base.got.Keys)
    && after == CreditAll(base.w, PeerGrants(PeerLines(p, w.Tree(), Grades(p, w), base.got, order)), Peer)
  }

  lemma GroupedStart()
    ensures Grouped(map[], []) && Summed(map[], [])
  {
  }

  lemma SettleOrdersSnoc(p: Params, w: World, snapshot: seq<nat>, i: nat)
    requires p.scale > 0 && i < |snapshot|
    ensures SettleOrders(p, w, snapshot[..i + 1]) == SettleOrder(p, SettleOrders(p, w, snapshot[..i]), snapshot[i])
  {
    assert snapshot[..i + 1][..i] == snapshot[..i];
  }

  lemma SourcesAre(w: World, todayStatic: map<nat, int>, contrib: map<nat, int>, staticPieces: map<nat, seq<Piece>>, pieces: seq<Piece>)
    requires Grouped(staticPieces, pieces) && todayStatic.Keys == staticPieces.Keys
    requires contrib == map x | x in todayStatic && x in w.users && !w.users[x].rewardLocked :: todayStatic[x]
    ensures Sources(contrib, staticPieces) == SourcePieces(w, pieces)
  {
    var a, b := Sources(contrib, staticPieces), SourcePieces(w, pieces);
    forall x: nat
      ensures x in a <==> x in b
      ensures x in a ==> a[x] == b[x]
    {
      assert PiecesAt(staticPieces, x) == PiecesOf(pieces, x);
    }
  }

  lemma CommunityEndsSettlement(p: Params, w: World, only: seq<nat>, order: seq<nat>, settled: World, pieces: seq<Piece>, after: World)
    requires p.scale > 0 && w.Valid() && settled.Valid()
    requires Run(settled, pieces) == SettleOrders(p, w, ActiveIds(w.orders, only))
    requires CommunitySettled(p, settled, SourcePieces(settled, pieces), order, after)
    ensures Schedule(p, w, only, order) && after == SettleOnce(p, w, only, order)
  {
    hide World.Valid, World.Tree, Tree.Valid, SettleOrders, ActiveIds;
    hide PayBase, Grades, Graded, PeerLines, PeerGrants, CreditAll, SourcePieces;
  }
}
