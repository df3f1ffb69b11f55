/** When half a unit for each ledger row covers the rounding of a settlement, although peer rewards
    are paid on rounded community base. */
module HalfUnits {
  import opened Arith
  import opened Params
  import opened Community
  import opened Tables
  import opened Settlement
  import opened GapWeights
  import opened SettlementBound

  /** The bound without carrying the base rows' share on: gain is at most the exact amounts and half a
      unit for each row.  Both sides are multiplied by 2 * scale^2. */
  ghost predicate HalfUnitPerRow(p: Params, s: int, rows: int, gain: int)
  {
    2 * (p.scale * (p.scale * gain))
    <= p.scale * (2 * StaticExact(p, s)) + (p.scale + p.peerRate) * (2 * (p.RateFor(9) * s)) + p.scale * (p.scale * rows)
  }

  /** Half a unit a row covers this settlement. */
  ghost predicate Covered(p: Params, w: World, only: seq<nat>, order: seq<nat>)
    requires p.scale > 0 && w.Valid()
  {
    var after := SettleOnce(p, w, only, order);
    HalfUnitPerRow(p, InterestTotal(RunPieces(p, w, only)),
                   NewRows(w, after, Generation) + NewRows(w, after, CommunityBase) + NewRows(w, after, Peer),
                   TotalBalance(after) - TotalBalance(w))
  }

  /** Half a unit for a base row and for what its rounding adds to the peer reward. */
  function Carried(p: Params): Allowance
  {
    Allowance(p.scale * (p.scale + p.peerRate), p.scale + p.peerRate, p.scale * p.scale)
  }

  /** No gap rate rounds any yield up so far that the peer reward on it exceeds half a unit. */
  ghost predicate NothingCarried(p: Params)
    requires p.scale > 0
  {
    GapsWithin(p, Carried(p))
  }

  /** The condition can be read off the rates before any call; it covers every settlement on all
      tables. */
  lemma CoveredWhenNothingCarried(p: Params, w: World, only: seq<nat>, order: seq<nat>)
    requires BoundAssumptions(p, w, p.RateFor(9)) && Schedule(p, w, only, order) && NothingCarried(p)
    ensures Covered(p, w, only, order)
  {
    hide World.Valid, SettleOnce, TotalBalance, InterestTotal, NewRows, RunPieces, StaticExact, GapsWithin;
    CarriedPositive(p);
    var top := p.RateFor(9);
    var daily, base, peer := SettlementParts(p, Carried(p), w, only, order, top);
    var after, s := SettleOnce(p, w, only, order), InterestTotal(RunPieces(p, w, only));
    CarriedArithmetic(p.scale, p.peerRate, daily, StaticExact(p, s), NewRows(w, after, Generation),
                      base, top * s, NewRows(w, after, CommunityBase), peer, NewRows(w, after, Peer));
  }

  lemma CarriedPositive(p: Params)
    requires p.scale > 0 && p.peerRate >= 0
    ensures Carried(p).Positive()
  {
    assert p.scale * (p.scale + p.peerRate) > 0;
  }

  lemma CarriedArithmetic(q: int, r: int, d: int, x: int, g: int, base: int, y: int, b: int, peer: int, l: int)
    requires q > 0 && r >= 0
    requires 2 * (q * d) <= 2 * x + q * g
    requires 2 * ((q * (q + r)) * base) <= 2 * ((q + r) * y) + (q * q) * b
    requires 2 * (q * peer) <= 2 * (r * base) + q * l
    ensures 2 * (q * (q * (d + base + peer))) <= q * (2 * x) + (q + r) * (2 * y) + q * (q * (g + b + l))
  {
    var b', d', p', c' := q * base, q * d, q * peer, r * base;
    Scaled(q, 2 * d', 2 * x + q * g);
    Scaled(q, 2 * p', 2 * c' + q * l);
    CarriedBase(q, r, base);
    Squared(q, b);
    ThreeParts(q, d, base, peer);
    ThreeParts(q, g, b, l);
    Distribute(q, 2 * x, q * g);
    Distribute(q, 2 * c', q * l);
  }

  lemma CarriedBase(q: int, r: int, base: int)
    ensures (q * (q + r)) * base == q * (q * base) + q * (r * base)
  {
    assert (q * (q + r)) * base == q * ((q + r) * base);
    assert (q + r) * base == q * base + r * base;
    Distribute(q, q * base, r * base);
  }

  lemma Squared(q: int, b: int)
    ensures (q * q) * b == q * (q * b)
  {
  }

  lemma ThreeParts(q: int, a: int, b: int, c: int)
    ensures q * (q * (a + b + c)) == q * (q * a) + q * (q * b) + q * (q * c)
  {
    Distribute(q, a + b, c);
    Distribute(q, a, b);
    Distribute(q, q * a + q * b, q * c);
    Distribute(q, q * a, q * b);
  }

  /** Without a peer reward nothing is carried. */
  lemma NothingWithoutPeers(p: Params)
    requires p.scale > 0 && p.peerRate == 0
    ensures NothingCarried(p)
  {
    GapsWithinHalf(p);
    forall a: nat, b: nat | b <= a <= 9
      ensures SharesWithin(p, Carried(p), Max(0, p.RateFor(a) - p.RateFor(b)))
    {
      assert SharesWithin(p, Half(p), Max(0, p.RateFor(a) - p.RateFor(b)));
      ScaledShares(p, Max(0, p.RateFor(a) - p.RateFor(b)));
    }
  }

  lemma ScaledShares(p: Params, gap: int)
    requires p.scale > 0 && p.peerRate == 0 && SharesWithin(p, Half(p), gap)
    ensures SharesWithin(p, Carried(p), gap)
  {
    hide Share;
    forall y: int | y > 0
      ensures 2 * (Carried(p).gain * Share(p, y, gap)) <= 2 * (Carried(p).exact * (y * gap)) + Carried(p).row
    {
      var q, a, x := p.scale, Share(p, y, gap), y * gap;
      assert 2 * (q * a) <= 2 * (1 * x) + q;
      ScaledHalf(q, a, x);
    }
  }

  lemma ScaledHalf(q: int, a: int, x: int)
    requires q > 0 && 2 * (q * a) <= 2 * x + q
    ensures 2 * ((q * q) * a) <= 2 * (q * x) + q * q
  {
    Scaled(q, 2 * (q * a), 2 * x + q);
    assert q * (2 * x + q) == 2 * (q * x) + q * q && q * (2 * (q * a)) == 2 * ((q * q) * a);
  }
}
