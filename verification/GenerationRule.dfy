/** Which uplines a static yield pays generation rewards to, and what they get, in terms of the tables
    alone (record.go, payGenerationRewards; generation.go). */
module GenerationRule {
  import opened Arith
  import opened Sums
  import opened Params
  import opened Orders
  import opened Tables
  import opened Settlement

  /** The users u invited who own an order, active or not. */
  ghost function Subscribed(w: World, u: nat): set<nat>
  {
    set v | v in w.users && w.users[v].inviter == Some(u) && exists i :: 0 <= i < |w.orders| && w.orders[i].user == v
  }

  /** From a to b user u earns amount as far as its active orders have room, and nothing else moves:
      its balance, its progress and one ledger row. */
  ghost predicate Earns(a: World, b: World, u: nat, amount: int)
  {
    var got := Min(Max(0, amount), ActiveRoom(a.orders, u));
    && SameShape(a, b)
    && (forall v :: v in a.users ==> b.users[v] == a.users[v].(withdrawable := a.users[v].withdrawable + if v == u then got else 0))
    && AccTotal(b.orders, u) == AccTotal(a.orders, u) + got
    && (forall i :: 0 <= i < |a.orders| && a.orders[i].user != u ==> b.orders[i] == a.orders[i])
    && b.ledger == a.ledger + if got > 0 then [Entry(u, Generation, got)] else []
  }

  /** The upline at depth d earns the reward when d is within the configured depth (ten when unset) and
      at least d of the users it invited own an order; otherwise nothing happens. */
  ghost predicate UplineServed(p: Params, w: World, a: World, b: World, u: nat, d: nat, reward: int)
  {
    if d <= (if p.maxGenerationDepth <= 0 then 10 else p.maxGenerationDepth) && |Subscribed(w, u)| >= d
    then Earns(a, b, u, reward)
    else b == a
  }

  /** steps are the tables before the nearest upline's turn, after it, and so on up the chain. */
  ghost predicate ServedInTurn(p: Params, w: World, uplines: seq<nat>, first: nat, reward: int, steps: seq<World>)
  {
    && |steps| == |uplines| + 1
    && forall i :: 0 <= i < |uplines| ==> UplineServed(p, w, steps[i], steps[i + 1], uplines[i], first + i, reward)
  }

  // ---- counting ----

  ghost function Among(w: World, ids: seq<nat>, u: nat): set<nat>
  {
    set v | v in Subscribed(w, u) && v in ids
  }

  lemma IsSubscribed(w: World, u: nat, x: nat)
    ensures x in Subscribed(w, u) <==> x in w.users && w.users[x].inviter == Some(u) && HasOrder(w.orders, x)
  {
  }

  lemma AmongStep(w: World, ids: seq<nat>, u: nat)
    requires Ascending(ids) && ids != []
    ensures |Among(w, ids, u)| == |Among(w, ids[1..], u)| + if ids[0] in Subscribed(w, u) then 1 else 0
  {
    hide Subscribed;
    var x, rest := ids[0], ids[1..];
    assert forall j :: 0 <= j < |rest| ==> rest[j] == ids[j + 1] > x;
    assert x !in Among(w, rest, u);
    assert Among(w, ids, u) == Among(w, rest, u) + if x in Subscribed(w, u) then {x} else {};
  }

  lemma {:induction false} CountIsSet(w: World, ids: seq<nat>, u: nat)
    requires Ascending(ids)
    ensures EffectiveDirects(w, ids, u) == |Among(w, ids, u)|
  {
    if ids == [] {
      assert Among(w, ids, u) == {};
    } else {
      hide Subscribed, Among, HasOrder;
      CountIsSet(w, ids[1..], u);
      AmongStep(w, ids, u);
      IsSubscribed(w, u, ids[0]);
    }
  }

  lemma DirectsCounted(w: World, u: nat)
    requires w.Valid()
    ensures EffectiveDirects(w, w.ids, u) == |Subscribed(w, u)|
  {
    CountIsSet(w, w.ids, u);
    assert Subscribed(w, u) == Among(w, w.ids, u);
  }

  lemma SameSubscribed(a: World, b: World, u: nat)
    requires SameShape(a, b)
    ensures Subscribed(b, u) == Subscribed(a, u)
  {
    forall v
      ensures v in Subscribed(a, u) <==> v in Subscribed(b, u)
    {
      assert (exists i :: 0 <= i < |a.orders| && a.orders[i].user == v) <==> (exists i :: 0 <= i < |b.orders| && b.orders[i].user == v);
    }
  }

  // ---- one upline ----

  lemma OthersKept(w: World, u: nat, amount: int, i: nat)
    requires i < |w.orders| && w.orders[i].user != u
    ensures Fill(w.orders, u, amount).0[i] == w.orders[i]
  {
    FillFrame(w.orders, u, amount, i);
  }

  lemma CreditValid(w: World, u: nat, amount: int)
    requires w.Valid()
    ensures SameShape(w, Credit(w, u, amount, Generation)) && Credit(w, u, amount, Generation).Valid()
  {
    CreditShape(w, u, amount, Generation);
    SameShapeValid(w, Credit(w, u, amount, Generation));
  }

  lemma CreditProgress(w: World, u: nat, amount: int)
    ensures var after, got := Credit(w, u, amount, Generation), Min(Max(0, amount), ActiveRoom(w.orders, u));
            && AccTotal(after.orders, u) == AccTotal(w.orders, u) + got
            && (forall i :: 0 <= i < |w.orders| && w.orders[i].user != u ==> after.orders[i] == w.orders[i])
            && after.ledger == w.ledger + if got > 0 then [Entry(u, Generation, got)] else []
  {
    AppliedIsCapped(w, u, amount);
    FillExact(w.orders, u, Max(0, amount));
    var after := Credit(w, u, amount, Generation);
    forall i: nat | i < |w.orders| && w.orders[i].user != u
      ensures after.orders[i] == w.orders[i]
    {
      OthersKept(w, u, amount, i);
    }
    hide Fill, Applied, ActiveRoom, AccTotal;
  }

  lemma CreditBalances(w: World, u: nat, amount: int)
    requires u in w.users
    ensures var after, got := Credit(w, u, amount, Generation), Min(Max(0, amount), ActiveRoom(w.orders, u));
            forall v :: v in w.users ==>
              v in after.users && after.users[v] == w.users[v].(withdrawable := w.users[v].withdrawable + if v == u then got else 0)
  {
    AppliedIsCapped(w, u, amount);
    hide Fill, Applied, ActiveRoom;
  }

  lemma CreditEarns(w: World, u: nat, amount: int)
    requires w.Valid() && u in w.users
    ensures Earns(w, Credit(w, u, amount, Generation), u, amount)
  {
    hide World.Valid, SameShape, Credit, ActiveRoom, AccTotal;
    CreditValid(w, u, amount);
    CreditProgress(w, u, amount);
    CreditBalances(w, u, amount);
  }

  lemma UplineStep(p: Params, w: World, a: World, u: nat, d: nat, reward: int)
    requires w.Valid() && a.Valid() && SameShape(w, a) && u in a.users && d >= 1
    ensures var b := PayUpline(p, a, u, reward, d);
            b.Valid() && SameShape(w, b) && UplineServed(p, w, a, b, u, d, reward)
  {
    hide World.Valid, Earns, Credit, Subscribed, EffectiveDirects, SameShape;
    DirectsCounted(a, u);
    SameSubscribed(w, a, u);
    CreditEarns(a, u, reward);
    CreditValid(a, u, reward);
    SameShapeTransitive(w, a, Credit(a, u, reward, Generation));
  }

  // ---- the whole chain ----

  lemma ChainAt(w: World, x: nat)
    requires w.Valid()
    ensures w.Tree().Rooted()
    ensures w.Tree().Chain(x)
         == if x in w.users && w.users[x].inviter.Some?
            then [w.users[x].inviter.value] + w.Tree().Chain(w.users[x].inviter.value) else []
  {
    w.TreeValid();
  }

  lemma {:induction false} UplinesServed(p: Params, w: World, a: World, x: nat, reward: int, d: nat) returns (steps: seq<World>)
    requires w.Valid() && a.Valid() && SameShape(w, a) && d >= 1
    ensures w.Tree().Rooted()
    ensures ServedInTurn(p, w, w.Tree().Chain(x), d, reward, steps)
    ensures steps != [] && steps[0] == a && steps[|steps| - 1] == PayUplines(p, a, x, reward, d)
    decreases x
  {
    hide *;
    ChainAt(w, x);
    ShapeLinks(w, a, x);
    PayUplinesStep(p, a, x, reward, d);
    if x in w.users && w.users[x].inviter.Some? {
      var u := w.users[x].inviter.value;
      var b := PayUpline(p, a, u, reward, d);
      UplineStep(p, w, a, u, d, reward);
      if d > p.GenerationDepth() {
        TooDeep(p, w, a, u, d, reward);
        var rest := UplinesServed(p, w, a, u, reward, d + 1);
        TooDeepStays(p, a, u, reward, d + 1);
        steps := [a] + rest;
        JoinSteps(p, w, u, w.Tree().Chain(u), d, reward, a, rest);
      } else {
        var rest := UplinesServed(p, w, b, u, reward, d + 1);
        steps := [a] + rest;
        JoinSteps(p, w, u, w.Tree().Chain(u), d, reward, a, rest);
      }
    } else {
      steps := [a];
      NoUplines(p, w, d, reward, a);
    }
  }

  lemma ShapeLinks(w: World, a: World, x: nat)
    requires w.Valid() && SameShape(w, a)
    ensures x in w.users <==> x in a.users
    ensures x in w.users ==> a.users[x].inviter == w.users[x].inviter
    ensures x in w.users && w.users[x].inviter.Some? ==> w.users[x].inviter.value in a.users && w.users[x].inviter.value < x
  {
  }

  lemma PayUplinesStep(p: Params, a: World, x: nat, reward: int, d: nat)
    ensures PayUplines(p, a, x, reward, d)
         == if d > p.GenerationDepth() || x !in a.users || a.users[x].inviter.None? then a
            else PayUplines(p, PayUpline(p, a, a.users[x].inviter.value, reward, d), a.users[x].inviter.value, reward, d + 1)
  {
  }

  lemma TooDeep(p: Params, w: World, a: World, u: nat, d: nat, reward: int)
    requires d > p.GenerationDepth()
    ensures UplineServed(p, w, a, a, u, d, reward)
  {
  }

  lemma TooDeepStays(p: Params, a: World, x: nat, reward: int, d: nat)
    requires d > p.GenerationDepth()
    ensures PayUplines(p, a, x, reward, d) == a
  {
  }

  lemma NoUplines(p: Params, w: World, d: nat, reward: int, a: World)
    ensures ServedInTurn(p, w, [], d, reward, [a])
  {
  }

  lemma JoinSteps(p: Params, w: World, u: nat, uplines: seq<nat>, d: nat, reward: int, a: World, rest: seq<World>)
    requires ServedInTurn(p, w, uplines, d + 1, reward, rest) && UplineServed(p, w, a, rest[0], u, d, reward)
    ensures ServedInTurn(p, w, [u] + uplines, d, reward, [a] + rest)
  {
    hide UplineServed;
    var all, steps := [u] + uplines, [a] + rest;
    forall i | 0 <= i < |all|
      ensures UplineServed(p, w, steps[i], steps[i + 1], all[i], d + i, reward)
    {
      if i > 0 {
        assert UplineServed(p, w, rest[i - 1], rest[i], uplines[i - 1], d + 1 + (i - 1), reward);
      }
    }
  }

  /** For all tables, users and yields: the uplines are served nearest first, each by its own count of
      subscribed direct referrals, with one reward that is the rate times the yield within half a unit.
      A user without account, a reward-locked one and a yield that is not positive pay nobody. */
  lemma GenerationsServed(p: Params, w: World, x: nat, y: int) returns (reward: int, steps: seq<World>)
    requires p.scale > 0 && w.Valid()
    ensures w.Tree().Rooted()
    ensures y > 0 ==> -p.scale <= 2 * (p.generationRate * y) - 2 * (p.scale * reward) <= p.scale
    ensures steps != [] && steps[0] == w && steps[|steps| - 1] == PayGenerations(p, w, x, y)
    ensures y > 0 && x in w.users && !w.users[x].rewardLocked && reward > 0 ==>
              ServedInTurn(p, w, w.Tree().Chain(x), 1, reward, steps)
    ensures !(y > 0 && x in w.users && !w.users[x].rewardLocked && reward > 0) ==> |steps| == 1
  {
    ChainAt(w, x);
    reward := GenerationReward(p, y);
    RewardNear(p, y);
    hide GenerationReward, World.Valid, PayUplines, SameShape, ServedInTurn;
    if reward > 0 && y > 0 && x in w.users && !w.users[x].rewardLocked {
      SameShapeSelf(w);
      steps := UplinesServed(p, w, w, x, reward, 1);
    } else {
      steps := [w];
    }
  }

  lemma SameShapeSelf(w: World)
    ensures SameShape(w, w)
  {
  }

  lemma RewardNear(p: Params, y: int)
    requires p.scale > 0
    ensures y > 0 ==> -p.scale <= 2 * (p.generationRate * y) - 2 * (p.scale * GenerationReward(p, y)) <= p.scale
  {
    assert y * p.generationRate == p.generationRate * y;
  }
}
