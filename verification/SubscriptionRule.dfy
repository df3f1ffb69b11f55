/** When a subscription is accepted and on what terms, in plain terms and over any history (record.go,
    CreateLocation; rate.go, MultiplierForAmount). */
module SubscriptionRule {
  import opened Arith
  import opened Params
  import opened Rate
  import opened Orders
  import opened Tables
  import opened Settlement
  import opened Runs
  import opened RunBooks
  import opened RunRates
  import U = UseCases

  /** Band k is the first one open or above amount. */
  ghost predicate FirstBand(p: Params, amount: int, k: nat)
  {
    && k < |p.multipliers| && (p.multipliers[k].lt.None? || amount < p.multipliers[k].lt.value)
    && forall j :: 0 <= j < k ==> p.multipliers[j].lt.Some? && p.multipliers[j].lt.value <= amount
  }

  /** The lowest subscription; 100 USDT when none is set. */
  function Least(p: Params): int
  {
    if p.minSubscribe > 0 then p.minSubscribe else 100 * 100_000_000
  }

  /** The amount is one that can be subscribed. */
  ghost predicate Offered(p: Params, amount: int)
  {
    amount > 0 && amount >= Least(p) && exists k: nat :: FirstBand(p, amount, k)
  }

  lemma {:induction false} BandFound(bands: seq<MultiplierTier>, amount: int) returns (k: nat)
    ensures k <= |bands| && forall j :: 0 <= j < k ==> bands[j].lt.Some? && bands[j].lt.value <= amount
    ensures k < |bands| ==> (bands[k].lt.None? || amount < bands[k].lt.value) && BandMultiplier(bands, amount) == Some(bands[k].multiplier)
    ensures k == |bands| ==> BandMultiplier(bands, amount) == None
  {
    if bands == [] {
      k := 0;
    } else if bands[0].lt.None? || amount < bands[0].lt.value {
      k := 0;
    } else {
      var rest := BandFound(bands[1..], amount);
      assert forall j :: 1 <= j < rest + 1 ==> bands[j] == bands[1..][j - 1];
      k := rest + 1;
    }
  }

  /** The price of an amount is the multiplier of its first band. */
  lemma PriceIs(p: Params, amount: int)
    requires amount >= p.minSubscribe
    ensures MultiplierFor(p, amount).Some? <==> exists k: nat :: FirstBand(p, amount, k)
    ensures forall k: nat :: FirstBand(p, amount, k) ==> MultiplierFor(p, amount) == Some(p.multipliers[k].multiplier)
  {
    var found := BandFound(p.multipliers, amount);
    if found < |p.multipliers| {
      assert FirstBand(p, amount, found);
    }
    forall k: nat | FirstBand(p, amount, k)
      ensures k == found
    {
    }
  }

  /** Accepted exactly when the amount is offered and the account covers it; refused as invalid exactly
      when it is not offered; a refusal changes nothing. */
  lemma SubscriptionAccepted(s: Setting, w: World, user: nat, amount: int)
    requires s.p.scale > 0 && w.Valid()
    ensures var attempt := Attempt(s, w, Op.Subscribe(user, amount));
            && (attempt.Done? <==> Offered(s.p, amount) && user in w.users && w.users[user].account >= amount)
            && (attempt == U.Failed(U.InvalidAmount) <==> !Offered(s.p, amount))
            && (!attempt.Done? ==> Apply(s, w, Op.Subscribe(user, amount)) == w)
  {
    hide World.Valid, MultiplierFor, FirstBand;
    if amount >= s.p.minSubscribe {
      PriceIs(s.p, amount);
    }
  }

  /** The account pays the amount, and one fresh order is opened at the price of the amount's own band;
      nothing else moves. */
  lemma SubscriptionTerms(s: Setting, w: World, user: nat, amount: int) returns (k: nat)
    requires s.p.scale > 0 && w.Valid() && Attempt(s, w, Op.Subscribe(user, amount)).Done?
    ensures FirstBand(s.p, amount, k) && user in w.users
    ensures Apply(s, w, Op.Subscribe(user, amount))
         == w.(users := w.users[user := w.users[user].(account := w.users[user].account - amount)],
               orders := w.orders + [Order(user, amount, s.p.multipliers[k].multiplier, RoundDiv(amount * s.p.multipliers[k].multiplier, 10),
                                           0, Active, Cycle(s.p.rateMin, Up, false, None))])
  {
    hide World.Valid, MultiplierFor, FirstBand;
    PriceIs(s.p, amount);
    k :| FirstBand(s.p, amount, k);
  }

  // ---- over any history ----

  /** The order is at least the lowest subscription, and its target is its amount times the multiplier
      of the amount's first band. */
  ghost predicate Priced(p: Params, o: Order)
  {
    o.amount >= Least(p)
    && exists k: nat :: FirstBand(p, o.amount, k) && o.target == RoundDiv(o.amount * p.multipliers[k].multiplier, 10)
  }

  ghost predicate AllPriced(p: Params, w: World)
  {
    forall i :: 0 <= i < |w.orders| ==> Priced(p, w.orders[i])
  }

  lemma NewRowPriced(s: Setting, w: World, op: Op, i: nat)
    requires s.p.scale > 0 && w.Valid() && |w.orders| <= i < |Apply(s, w, op).orders|
    ensures Priced(s.p, Apply(s, w, op).orders[i])
  {
    if op.Subscribe? {
      hide World.Valid, Attempt, FirstBand;
      SubscriptionAccepted(s, w, op.user, op.amount);
      var k := SubscriptionTerms(s, w, op.user, op.amount);
    } else {
      OnlySubscriptionsOpen(s, w, op);
    }
  }

  lemma OnlySubscriptionsOpen(s: Setting, w: World, op: Op)
    requires s.p.scale > 0 && w.Valid() && !op.Subscribe?
    ensures |Apply(s, w, op).orders| == |w.orders|
  {
    hide World.Valid, SettleOnce, U.FindByAddress, U.NewPath;
    match op
    case CancelPending => CancelKeepsOrders(w, |w.withdraws|);
    case Settle(only, order) => SettlementShape(s.p, w, only, order);
    case _ =>
  }

  /** Every order of every history is priced by its own amount. */
  lemma {:induction false} PricedOverRuns(s: Setting, w: World, ops: seq<Op>)
    requires s.p.scale > 0 && w.Valid() && AllPriced(s.p, w)
    ensures AllPriced(s.p, After(s, w, ops))
    decreases |ops|
  {
    if ops != [] {
      var w1 := Apply(s, w, ops[0]);
      ApplyValid(s, w, ops[0]);
      hide World.Valid, Apply, Priced;
      forall i | 0 <= i < |w1.orders|
        ensures Priced(s.p, w1.orders[i])
      {
        if i < |w.orders| {
          ApplyKeepsRow(s, w, ops[0], i);
          SameTerms(s.p, w.orders[i], w1.orders[i]);
        } else {
          NewRowPriced(s, w, ops[0], i);
        }
      }
      PricedOverRuns(s, w1, ops[1..]);
    }
  }

  lemma SameTerms(p: Params, a: Order, b: Order)
    requires Priced(p, a) && Kept(a, b)
    ensures Priced(p, b)
  {
  }
}
