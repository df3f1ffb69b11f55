/** The settlement and order use cases as the source runs them (record.go), updating the database
    step by step, each proved to end in the tables its specification gives. */
module RecordUseCases {
  import opened Arith
  import opened Forest
  import opened Params
  import opened Rate
  import opened Orders
  import opened Community
  import opened CommunityLoops
  import opened Volumes
  import opened Tables
  import opened Settlement
  import opened PathIndex
  import opened Text
  import opened Database
  import opened SettlementSteps
  import U = UseCases

  function ErrorOf(o: U.Outcome): Option<U.Error>
  {
    match o
    case Done(_) => None
    case Failed(error) => Some(error)
  }

  class RecordUseCase {
    const db: Database
    const p: Params
    const payout: U.PayoutConfig

    constructor (db: Database, p: Params, payout: U.PayoutConfig)
      ensures this.db == db && this.p == p && this.payout == payout
    {
      this.db, this.p, this.payout := db, p, payout;
    }

    // ---- rewards ----

    /** creditOrderAcceleration. */
    method CreditOrderAcceleration(u: nat, amount: int, kind: Kind) returns (applied: int)
      modifies db
      ensures db.Snapshot() == Credit(old(db.Snapshot()), u, amount, kind)
      ensures applied == Applied(old(db.Snapshot()), u, amount)
    {
      hide Fill, EarliestActive, ActiveCount;
      if amount <= 0 {
        return 0;
      }
      var remaining := amount;
      applied := 0;
      while remaining > 0
        invariant remaining >= 0 && applied >= 0 && applied + remaining == amount
        invariant db.Snapshot() == old(db.Snapshot()).(orders := db.orders)
        invariant Fill(db.orders, u, remaining) == Fill(old(db.orders), u, amount)
        decreases remaining > 0, ActiveCount(db.orders, u)
      {
        var found := db.FindEarliestActive(u);
        if found.None? {
          break;
        }
        var k := found.value;
        EarliestIsActive(db.orders, u);
        var order := db.orders[k];
        var chunk, room := ChunkAcceleration(order.acc, order.target, remaining);
        FillRound(db.orders, u, remaining, k, order.Fed(chunk));
        if room <= 0 {
          var _ := db.UpdateOrder(k, order.(status := Exited));
          continue;
        }
        var fed := order.(acc := order.acc + chunk);
        if fed.acc >= fed.target {
          fed := fed.(acc := fed.target, status := Exited);
        }
        var _ := db.UpdateOrder(k, fed);
        applied := applied + chunk;
        remaining := remaining - chunk;
      }
      FillEnds(db.orders, u, remaining);
      if applied <= 0 {
        return 0;
      }
      var _ := db.AddWithdrawableBalance(u, applied);
      db.WriteLedger(u, kind, applied);
    }

    /** chunkAcceleration. */
    method ChunkAcceleration(accumulated: int, exitTarget: int, amount: int) returns (chunk: int, room: int)
      ensures room == Max(0, exitTarget - accumulated)
      ensures chunk == if room == 0 then 0 else Min(amount, room)
    {
      room := exitTarget - accumulated;
      if room <= 0 {
        return 0, 0;
      }
      chunk := amount;
      if chunk > room {
        chunk := room;
      }
    }

    // ---- settlement ----

    /** payGenerationRewards. */
    method PayGenerationRewards(from: nat, interest: int)
      requires p.scale > 0 && db.Snapshot().Valid()
      modifies db
      ensures db.Snapshot() == PayGenerations(p, old(db.Snapshot()), from, interest)
      ensures db.Snapshot().Valid()
    {
      hide Credit, World.Valid, EffectiveDirects, CanEarnGeneration, GenerationReward;
      ghost var w0 := db.Snapshot();
      var reward := GenerationReward(p, interest);
      if reward <= 0 {
        return;
      }
      var user := db.FindUser(from);
      if user.None? || user.value.rewardLocked {
        return;
      }
      var id, current, depth := from, user.value, 1;
      while depth <= p.GenerationDepth()
        invariant 1 <= depth <= p.GenerationDepth() + 1
        invariant db.Snapshot().Valid()
        invariant id in db.users && db.users[id].inviter == current.inviter
        invariant PayUplines(p, db.Snapshot(), id, reward, depth) == PayUplines(p, w0, from, reward, 1)
      {
        if current.inviter.None? {
          break;
        }
        var inviterId := current.inviter.value;
        InviterExists(db.Snapshot(), id);
        current := db.users[inviterId];
        var directs := db.CountEffectiveDirectReferrals(inviterId);
        ghost var before := db.Snapshot();
        if CanEarnGeneration(p, directs, depth) {
          var _ := CreditOrderAcceleration(inviterId, reward, Generation);
          CreditKeepsLinks(before, inviterId, reward, Generation);
        }
        id, depth := inviterId, depth + 1;
      }
    }

    /** One pass of the settle loop.  todayStatic and staticPieces are the two maps the source
        collects; pieces is the same yields in one sequence. */
    method SettleOneOrder(i: nat, todayStatic: map<nat, int>, staticPieces: map<nat, seq<Piece>>, ghost pieces: seq<Piece>)
      returns (todayStatic': map<nat, int>, staticPieces': map<nat, seq<Piece>>, ghost pieces': seq<Piece>)
      requires p.scale > 0 && db.Snapshot().Valid()
      requires Grouped(staticPieces, pieces) && Summed(todayStatic, pieces) && todayStatic.Keys == staticPieces.Keys
      modifies db
      ensures db.Snapshot().Valid()
      ensures Run(db.Snapshot(), pieces') == SettleOrder(p, Run(old(db.Snapshot()), pieces), i)
      ensures Grouped(staticPieces', pieces') && Summed(todayStatic', pieces') && todayStatic'.Keys == staticPieces'.Keys
    {
      hide World.Valid, PayGenerations, Grouped, Summed, StaticYield, AdvanceRate;
      ghost var w0 := db.Snapshot();
      SettleOrderValid(p, Run(w0, pieces), i);
      todayStatic', staticPieces', pieces' := todayStatic, staticPieces, pieces;
      var found := db.FindOrder(i);
      if found.None? || found.value.status.Exited? {
        return;
      }
      var order := found.value;
      var room := order.target - order.acc;
      if room <= 0 {
        order := order.(status := Exited, cycle := order.cycle.(turnPending := false));
        var _ := db.UpdateOrder(i, order);
        return;
      }
      var rateUsed := order.cycle.rate;
      order := order.(cycle := order.cycle.(turnPending := false, lastSettled := Some(rateUsed)));
      var interest := StaticYield(order.amount, rateUsed);
      if interest <= 0 {
        var _ := db.UpdateOrder(i, order);
        return;
      }
      if interest > room {
        interest := room;
      }
      order := order.(acc := order.acc + interest);
      var _ := db.AddWithdrawableBalance(order.user, interest);
      db.WriteLedger(order.user, Static, interest);
      if order.acc >= order.target {
        order := order.(acc := order.target, status := Exited, cycle := order.cycle.(turnPending := false));
      } else {
        var (rate, direction) := AdvanceRate(p, order.cycle.rate, order.cycle.direction);
        order := order.(cycle := order.cycle.(rate := rate, direction := direction));
      }
      var _ := db.UpdateOrder(i, order);
      assert db.Snapshot() == PayInterest(p, w0, i, interest);
      todayStatic' := todayStatic[order.user := (if order.user in todayStatic then todayStatic[order.user] else 0) + interest];
      var piece := Piece(order.user, i, interest, order.amount, rateUsed);
      GroupedAppend(staticPieces, pieces, piece);
      SummedAppend(todayStatic, pieces, piece);
      staticPieces' := staticPieces[order.user := PiecesAt(staticPieces, order.user) + [piece]];
      pieces' := pieces + [piece];
      PayInterestValid(p, w0, i, interest);
      PayGenerationRewards(order.user, interest);
    }

    /** Invite links, child lists and personal volumes, as settleCommunity loads them. */
    method LoadTree() returns (t: Tree, personal: Personal)
      requires db.Snapshot().Valid()
      ensures t == db.Snapshot().Tree() && personal == PersonalVolumes(db.Snapshot())
    {
      hide World.Valid, World.Tree, Loading;
      ghost var w := db.Snapshot();
      var users := db.ids;
      personal := db.SumAmountsByUser();
      var children: map<nat, seq<nat>>, parent: map<nat, nat> := map[], map[];
      LoadStarts(w, personal);
      for i := 0 to |users|
        invariant Loading(w, i, children, parent, personal)
      {
        var id := users[i];
        LoadStep(w, i, children, parent, personal);
        var u := db.users[id];
        if u.inviter.Some? {
          var pid := u.inviter.value;
          parent := parent[id := pid];
          children := children[pid := (if pid in children then children[pid] else []) + [id]];
        }
        if id !in personal {
          personal := personal[id := 0];
        }
      }
      LoadEnds(w, children, parent, personal);
      t := Forest.Tree.Tree(users, parent, children);
    }

    /** Recompute every user's small area and, unless locked, the level. */
    method RegradeAll(t: Tree, personal: Personal) returns (levels: Levels)
      requires db.Snapshot().Valid() && t == db.Snapshot().Tree() && personal == PersonalVolumes(db.Snapshot())
      modifies db
      ensures db.Snapshot() == Graded(p, old(db.Snapshot())) && levels == Grades(p, old(db.Snapshot()))
    {
      ghost var w := db.Snapshot();
      w.TreeValid();
      hide World.Valid, World.Tree, Tree.Valid, Tree.Rooted, GradingVolume, GradedUpTo, GradeOf, VolumeOf, PersonalVolumes, Graded, Grades;
      var ids, rows := db.ids, db.users;
      levels := map[];
      GradedStart(p, w);
      for i := 0 to |ids|
        invariant db.Snapshot() == w.(users := db.users)
        invariant GradedUpTo(p, w, ids[..i], db.users, levels)
      {
        var id := ids[i];
        RegradeStep(p, w, i, db.users, levels);
        var level := RegradeUser(t, personal, id, rows[id]);
        levels := levels[id := level];
      }
      assert ids[..|ids|] == ids;
      GradedEnd(p, w, db.users, levels);
    }

    /** One user's turn; a locked level is kept, its volume is still stored. */
    method RegradeUser(t: Tree, personal: Personal, id: nat, u: User) returns (level: nat)
      requires t.Valid() && id in db.users && db.users[id] == u
      modifies db
      ensures level == if u.levelLocked then u.level else p.LevelFor(GradingVolume(t, personal, id))
      ensures db.Snapshot() == old(db.Snapshot()).(
                users := old(db.users)[id := u.(level := level, volume := GradingVolume(t, personal, id))])
    {
      hide Tree.Valid, GradingVolume;
      var volume := SmallAreaOf(t, personal, id);
      if u.levelLocked {
        level := u.level;
        db.UpdateCommunityVolume(id, volume);
      } else {
        level := LevelFromVolume(p, volume);
        db.UpdateCommunity(id, level, volume);
      }
    }

    method SmallAreaOf(t: Tree, personal: Personal, u: nat) returns (volume: int)
      requires t.Valid()
      ensures volume == GradingVolume(t, personal, u)
    {
      var legs := t.Kids(u);
      t.KidsAbove(u);
      var volumes := [];
      for i := 0 to |legs|
        invariant |volumes| == i
        invariant forall j :: 0 <= j < i ==> volumes[j] == SubtreeTotal(t, personal, legs[j])
      {
        assert legs[i] in legs;
        var volume := SubtreeVolume(t, personal, legs[i]);
        volumes := volumes + [volume];
      }
      assert volumes == LegTotals(t, personal, legs);
      volume := SmallAreaVolume(volumes);
    }

    /** Phase 1: pay every user's base lines and note what was actually applied. */
    method PayCommunityBase(t: Tree, levels: Levels, pieces: Pieces, users: seq<nat>) returns (got: Gains)
      requires p.scale > 0 && t.Valid()
      modifies db
      ensures Paid(db.Snapshot(), got) == PayBase(p, t, levels, pieces, old(db.Snapshot()), users)
    {
      hide Tree.Valid, BaseLines, Credit, Applied, PayingLines, PayClaimant;
      got := map[];
      for i := 0 to |users|
        invariant Paid(db.Snapshot(), got) == PayBase(p, t, levels, pieces, old(db.Snapshot()), users[..i])
      {
        assert users[..i + 1][..i] == users[..i];
        var u := users[i];
        var lines := ListCommunityBaseLines(p, t, levels, pieces, u);
        ghost var before, was, paid: int := db.Snapshot(), got, 0;
        PayingStart(before, u, lines, was);
        for k := 0 to |lines|
          invariant PayingLines(before, db.Snapshot(), u, lines, k, paid, got, was)
        {
          PayingStep(before, db.Snapshot(), u, lines, k, paid, got, was);
          var applied := CreditOrderAcceleration(u, lines[k].amount, CommunityBase);
          paid := paid + applied;
          if applied <= 0 {
            continue;
          }
          got := got[u := (if u in got then got[u] else 0) + applied];
        }
        PayingEnd(before, db.Snapshot(), u, lines, paid, got, was);
      }
      assert users[..|users|] == users;
    }

    /** Phase 2: the peer rewards, in whatever order the earners are met. */
    method PayPeers(t: Tree, levels: Levels, got: Gains) returns (ghost order: seq<nat>)
      requires p.scale > 0
      modifies db
      ensures multiset(order) == multiset(got.Keys)
      ensures db.Snapshot() == CreditAll(old(db.Snapshot()), PeerGrants(PeerLines(p, t, levels, got, order)), Peer)
    {
      hide Credit, CreditAll, PeerLines, PeerGrants;
      var lines;
      lines, order := ListPeerLines(p, t, levels, got);
      ghost var before := db.Snapshot();
      assert lines[0..] == lines;
      for k := 0 to |lines|
        invariant CreditAll(db.Snapshot(), PeerGrants(lines[k..]), Peer) == CreditAll(before, PeerGrants(lines), Peer)
      {
        PeerGrantsFrom(lines, k, db.Snapshot());
        var _ := CreditOrderAcceleration(lines[k].recipient, lines[k].amount, Peer);
      }
      NothingToPay(db.Snapshot(), lines);
    }

    /** settleCommunity.  todayStatic holds the users whose yields count as reward source. */
    method SettleCommunity(todayStatic: map<nat, int>, staticPieces: map<nat, seq<Piece>>) returns (ghost order: seq<nat>)
      requires p.scale > 0 && db.Snapshot().Valid()
      modifies db
      ensures CommunitySettled(p, old(db.Snapshot()), Sources(todayStatic, staticPieces), order, db.Snapshot())
    {
      ghost var w := db.Snapshot();
      w.TreeValid();
      hide World.Valid, World.Tree, Tree.Valid, PersonalVolumes, Sources, PayBase, PeerLines, PeerGrants, CreditAll, Graded, Grades;
      var t, personal := LoadTree();
      var ids := db.ids;
      var levels := RegradeAll(t, personal);
      var pieces := Sources(todayStatic, staticPieces);
      var got := PayCommunityBase(t, levels, pieces, ids);
      order := PayPeers(t, levels, got);
    }

    /** settleStaticOnce: the whole settlement of one day. */
    method SettleStaticOnce(only: seq<nat>) returns (ghost order: seq<nat>)
      requires p.scale > 0 && db.Snapshot().Valid()
      modifies db
      ensures Schedule(p, old(db.Snapshot()), only, order)
      ensures db.Snapshot() == SettleOnce(p, old(db.Snapshot()), only, order)
    {
      hide World.Valid, SettleOrder, Grouped, Summed, CommunitySettled, Schedule, SettleOnce;
      ghost var w := db.Snapshot();
      var snapshot := db.ListActive(only);
      var todayStatic: map<nat, int>, staticPieces: map<nat, seq<Piece>> := map[], map[];
      ghost var pieces: seq<Piece> := [];
      GroupedStart();
      for i := 0 to |snapshot|
        invariant db.Snapshot().Valid()
        invariant Run(db.Snapshot(), pieces) == SettleOrders(p, w, snapshot[..i])
        invariant Grouped(staticPieces, pieces) && Summed(todayStatic, pieces) && todayStatic.Keys == staticPieces.Keys
      {
        SettleOrdersSnoc(p, w, snapshot, i);
        todayStatic, staticPieces, pieces := SettleOneOrder(snapshot[i], todayStatic, staticPieces, pieces);
      }
      assert snapshot[..|snapshot|] == snapshot;
      ghost var settled := db.Snapshot();
      var contrib := DropLocked(todayStatic);
      SourcesAre(settled, todayStatic, contrib, staticPieces, pieces);
      order := SettleCommunity(contrib, staticPieces);
      CommunityEndsSettlement(p, w, only, order, settled, pieces, db.Snapshot());
    }

    /** Static totals of the users who are not reward-locked now. */
    method DropLocked(todayStatic: map<nat, int>) returns (contrib: map<nat, int>)
      ensures contrib == map x | x in todayStatic && x in db.users && !db.users[x].rewardLocked :: todayStatic[x]
    {
      contrib := map[];
      var todo := todayStatic.Keys;
      while todo != {}
        invariant todo <= todayStatic.Keys
        invariant contrib == map x | x in todayStatic && x !in todo && x in db.users && !db.users[x].rewardLocked :: todayStatic[x]
      {
        var x :| x in todo;
        todo := todo - {x};
        var u := db.FindUser(x);
        if u.None? || u.value.rewardLocked {
          continue;
        }
        contrib := contrib[x := todayStatic[x]];
      }
    }

    // ---- orders and withdrawals ----

    /** CreateLocation: check, deduct, open the order. */
    method CreateLocation(id: nat, amount: int) returns (failure: Option<U.Error>)
      modifies db
      ensures db.Snapshot() == U.Subscribe(p, old(db.Snapshot()), id, amount).Or(old(db.Snapshot()))
      ensures failure == ErrorOf(U.Subscribe(p, old(db.Snapshot()), id, amount))
    {
      hide BandMultiplier;
      if amount <= 0 || amount < U.LowestSubscription(p) {
        return Some(U.InvalidAmount);
      }
      var multiplier, ok := MultiplierForAmount(p, amount);
      if !ok {
        return Some(U.InvalidAmount);
      }
      var user := db.FindUser(id);
      if user.None? {
        return Some(U.UserNotFound);
      }
      if user.value.account < amount {
        return Some(U.InsufficientBalance);
      }
      var paid := db.SubAccountBalance(id, amount);
      if !paid {
        return Some(U.InsufficientBalance);
      }
      db.CreateOrder(U.NewOrder(p, id, amount, multiplier));
      return None;
    }

    /** CreateWithdraw: check, deduct, queue, turn the rates of the active orders, book. */
    method CreateWithdraw(id: nat, amount: int) returns (failure: Option<U.Error>)
      requires p.scale > 0
      modifies db
      ensures db.Snapshot() == U.Extract(p, payout, old(db.Snapshot()), id, amount).Or(old(db.Snapshot()))
      ensures failure == ErrorOf(U.Extract(p, payout, old(db.Snapshot()), id, amount))
    {
      if amount <= 0 {
        return Some(U.InvalidAmount);
      }
      var user := db.FindUser(id);
      if user.None? {
        return Some(U.UserNotFound);
      }
      if user.value.withdrawable < amount {
        return Some(U.InsufficientBalance);
      }
      var fee := U.Fee(p, amount);
      var credited := amount - fee;
      var blocker := U.PayoutBlocker(payout, credited);
      if blocker.Some? {
        return blocker;
      }
      var paid := db.SubWithdrawableBalance(id, amount);
      if !paid {
        return Some(U.InsufficientBalance);
      }
      db.CreateWithdraw(Withdraw(id, amount, fee, credited, Rewarded, ""));
      TurnRates(id);
      db.WriteLedger(id, Kind.Extract, -amount);
      return None;
    }

    /** The rate turn, newest active order first. */
    method TurnRates(id: nat)
      modifies db
      ensures db.Snapshot() == old(db.Snapshot()).(orders := U.TurnOrders(p, old(db.orders), id))
    {
      hide ApplyExtractRateTurn, TurnedUpTo;
      ghost var orders := db.orders;
      var locs := db.ListActiveOf(id);
      TurnStart(p, orders, locs);
      for k := 0 to |locs|
        invariant db.Snapshot() == old(db.Snapshot()).(orders := db.orders)
        invariant TurnedUpTo(p, orders, db.orders, locs, k)
      {
        var i := locs[k];
        TurnStep(p, orders, db.orders, locs, k);
        var loc := db.orders[i];
        if loc.cycle.turnPending {
          continue;
        }
        var turned := ApplyExtractRateTurn(p, loc.cycle.direction, loc.cycle.lastSettled);
        if turned.None? {
          continue;
        }
        var (rate, direction) := turned.value;
        var _ := db.UpdateOrder(i, loc.(cycle := loc.cycle.(rate := rate, direction := direction, turnPending := true)));
      }
      TurnEnd(p, orders, db.orders, id);
    }

    /** CancelAllPendingWithdraws: cancel and refund the legacy pending rows, newest first. */
    method CancelAllPendingWithdraws() returns (n: nat)
      modifies db
      ensures db.Snapshot() == U.CancelPending(old(db.Snapshot()), |old(db.withdraws)|)
      ensures n == |PendingIds(old(db.withdraws))|
    {
      hide CancellingFrom, U.CancelPending, PendingIds;
      ghost var w := db.Snapshot();
      var list := db.ListPending();
      CancelStart(w, list);
      n := 0;
      ghost var bound: nat := |w.withdraws|;
      for k := 0 to |list|
        invariant n == k
        invariant CancellingFrom(w, db.Snapshot(), list, k, bound)
      {
        CancelNext(w, db.Snapshot(), list, k, bound);
        CancelOne(list[k]);
        n := n + 1;
        bound := list[k];
      }
      CancelDone(w, db.Snapshot(), list, bound);
    }

    method CancelOne(i: nat)
      requires i < |db.withdraws| && db.withdraws[i].status.Pending?
      modifies db
      ensures db.Snapshot() == U.Refunded(old(db.Snapshot()), i)
    {
      var x := db.withdraws[i];
      var ok := db.CasUpdateStatus(i, Pending, Cancelled);
      if ok {
        var _ := db.AddWithdrawableBalance(x.user, x.amount);
      }
    }

    // ---- volumes ----

    /** AreaVolumes: team total, largest leg and small area from the path index. */
    method AreaVolumes(u: nat) returns (total: int, maxLeg: int, smallArea: int)
      ensures (total, maxLeg, smallArea) == PathIndex.AreaVolumes(db.Snapshot(), u)
    {
      var directs := db.ListByInviter(u);
      var legs: seq<int> := [];
      total, maxLeg, smallArea := 0, 0, 0;
      for i := 0 to |directs|
        invariant |legs| == i && total == Total(legs)
        invariant forall j :: 0 <= j < i ==> legs[j] == PathVolume(db.Snapshot(), db.orders, directs[j])
      {
        var volume := SumSubtreeLocationAmount(directs[i]);
        assert (legs + [volume])[..i] == legs;
        legs := legs + [volume];
        total := total + volume;
      }
      assert legs == PathLegs(db.Snapshot(), u);
      if |legs| == 0 {
        return 0, 0, 0;
      }
      var index := MaxLegIndex(legs);
      maxLeg := legs[index];
      LargestIs(legs, index);
      smallArea := SmallAreaVolume(legs);
    }

    /** Subscriptions of v and everyone below, by path prefix. */
    method SumSubtreeLocationAmount(v: nat) returns (volume: int)
      ensures volume == PathVolume(db.Snapshot(), db.orders, v)
    {
      var path := db.GetPath(v);
      if path == "" {
        path := Numeral(v);
      }
      PrefixIsPathVolume(db.Snapshot(), db.orders, v);
      volume := db.SumAmountByPathPrefix(path);
    }

    // ---- switches ----

    method SetVIP(id: nat, level: int) returns (failure: Option<U.Error>)
      modifies db
      ensures db.Snapshot() == U.SetVip(old(db.Snapshot()), id, level).Or(old(db.Snapshot()))
      ensures failure == ErrorOf(U.SetVip(old(db.Snapshot()), id, level))
    {
      if level < 0 || level > 9 {
        return Some(U.InvalidAmount);
      }
      var user := db.FindUser(id);
      if user.None? {
        return Some(U.UserNotFound);
      }
      db.UpdateUser(id, user.value.(level := level, levelLocked := true));
      return None;
    }

    method UnlockVIP(id: nat) returns (failure: Option<U.Error>)
      modifies db
      ensures db.Snapshot() == U.UnlockVip(old(db.Snapshot()), id).Or(old(db.Snapshot()))
      ensures failure == ErrorOf(U.UnlockVip(old(db.Snapshot()), id))
    {
      var user := db.FindUser(id);
      if user.None? {
        return Some(U.UserNotFound);
      }
      db.UpdateUser(id, user.value.(levelLocked := false));
      return None;
    }
  }

  lemma LargestIs(legs: seq<int>, index: int)
    requires 0 <= index < |legs| && forall j :: 0 <= j < |legs| ==> legs[j] <= legs[index]
    ensures legs[index] == Largest(legs)
  {
    assert legs[index] in legs;
    var m :| 0 <= m < |legs| && legs[m] == Largest(legs);
  }

  lemma {:induction false} PrefixIsPathVolume(w: World, orders: seq<Order>, v: nat)
    ensures PrefixVolume(w.paths, orders, QueryPath(w, v)) == PathVolume(w, orders, v)
  {
    if orders != [] {
      PrefixIsPathVolume(w, orders[1..], v);
    }
  }

  // ---- turning the rates ----

  /** The first k listed orders have been turned, the others are as before. */
  ghost predicate TurnedUpTo(p: Params, before: seq<Order>, now: seq<Order>, locs: seq<nat>, k: nat)
  {
    && k <= |locs| && |now| == |before|
    && (forall i, j :: 0 <= i < j < |locs| ==> locs[i] > locs[j])
    && (forall i: nat :: i in locs ==> i < |before|)
    && forall i: nat :: i < |before| ==>
         now[i] == if i in locs[..k] then before[i].(cycle := Turn(p, before[i].cycle)) else before[i]
  }

  lemma TurnStart(p: Params, orders: seq<Order>, locs: seq<nat>)
    requires forall i, j :: 0 <= i < j < |locs| ==> locs[i] > locs[j]
    requires forall i: nat :: i in locs ==> i < |orders|
    ensures TurnedUpTo(p, orders, orders, locs, 0)
  {
  }

  lemma TurnStep(p: Params, before: seq<Order>, now: seq<Order>, locs: seq<nat>, k: nat)
    requires k < |locs| && TurnedUpTo(p, before, now, locs, k)
    ensures locs[k] < |now|
    ensures var i := locs[k];
            TurnedUpTo(p, before, now[i := now[i].(cycle := Turn(p, now[i].cycle))], locs, k + 1)
    ensures Turn(p, now[locs[k]].cycle) == now[locs[k]].cycle ==> TurnedUpTo(p, before, now, locs, k + 1)
  {
    hide Turn;
    var i := locs[k];
    assert i in locs && locs[..k + 1] == locs[..k] + [i] && i !in locs[..k];
    var o := now[i];
    assert o.(cycle := o.cycle) == o && now[i := o] == now;
  }

  lemma TurnEnd(p: Params, before: seq<Order>, now: seq<Order>, u: nat)
    requires TurnedUpTo(p, before, now, ActiveOf(before, u), |ActiveOf(before, u)|)
    ensures now == U.TurnOrders(p, before, u)
  {
    hide Turn, ActiveOf;
    var locs := ActiveOf(before, u);
    assert locs[..|locs|] == locs;
    assert forall i: nat :: i in locs <==> i < |before| && before[i].ActiveFor(u);
  }

  // ---- cancelling legacy rows ----

  /** Cancelling what is left below bound finishes cancelling everything. */
  ghost predicate CancellingFrom(before: World, now: World, list: seq<nat>, k: nat, bound: nat)
  {
    && k <= |list| && bound <= |now.withdraws| == |before.withdraws|
    && U.CancelPending(now, bound) == U.CancelPending(before, |before.withdraws|)
    && (forall i: nat :: i < bound && now.withdraws[i].status.Pending? ==> i in list[k..])
    && (forall j: nat :: k <= j < |list| ==> list[j] < bound && now.withdraws[list[j]].status.Pending?)
    && (forall i, j :: 0 <= i < j < |list| ==> list[i] > list[j])
  }

  lemma CancelStart(w: World, list: seq<nat>)
    requires list == PendingIds(w.withdraws)
    ensures CancellingFrom(w, w, list, 0, |w.withdraws|)
  {
    assert forall i: nat :: i in list <==> i < |w.withdraws| && w.withdraws[i].status.Pending?;
    hide PendingIds, U.CancelPending;
    assert list[0..] == list;
    forall j: nat | j < |list|
      ensures list[j] < |w.withdraws| && w.withdraws[list[j]].status.Pending?
    {
      assert list[j] in list;
    }
  }

  lemma {:induction false} CancelSkip(w: World, low: nat, n: nat)
    requires low <= n <= |w.withdraws|
    requires forall i :: low <= i < n ==> !w.withdraws[i].status.Pending?
    ensures U.CancelPending(w, n) == U.CancelPending(w, low)
    decreases n
  {
    if low < n {
      CancelSkip(w, low, n - 1);
    }
  }

  lemma CancelNext(before: World, now: World, list: seq<nat>, k: nat, bound: nat)
    requires k < |list| && CancellingFrom(before, now, list, k, bound)
    ensures list[k] < |now.withdraws| && now.withdraws[list[k]].status.Pending?
    ensures CancellingFrom(before, U.Refunded(now, list[k]), list, k + 1, list[k])
  {
    var i := list[k];
    forall j: nat | i < j < bound
      ensures !now.withdraws[j].status.Pending?
    {
      assert forall y :: y in list[k..] ==> y <= i;
    }
    CancelSkip(now, i + 1, bound);
    assert forall y :: y in list[k..] ==> y == i || y in list[k + 1..];
  }

  lemma CancelDone(before: World, now: World, list: seq<nat>, bound: nat)
    requires CancellingFrom(before, now, list, |list|, bound)
    ensures now == U.CancelPending(before, |before.withdraws|)
  {
    assert list[|list|..] == [];
    CancelSkip(now, 0, bound);
  }
}
