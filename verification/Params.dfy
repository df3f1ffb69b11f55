/** Business parameters (params.go) and the tier lookups of community.go and rate.go. */
module Params {
  import opened Arith

  /** Exit multiplier band; an empty lt is the open last band.  Multipliers count tenths. */
  datatype MultiplierTier = MultiplierTier(lt: Option<int>, multiplier: int)

  datatype CommunityTier = CommunityTier(level: nat, minVolume: int, rate: int)

  /** scale is the common denominator of the reward and fee rates. */
  datatype Params = Params(
    scale: int,
    extractFee: int,
    generationRate: int,
    maxGenerationDepth: int,
    peerRate: int,
    minPeerLevel: int,
    rateMin: int,
    rateMax: int,
    rateStep: int,
    minSubscribe: int,
    multipliers: seq<MultiplierTier>,
    tiers: seq<CommunityTier>)
  {
    function GenerationDepth(): nat
    {
      if maxGenerationDepth <= 0 then 10 else maxGenerationDepth
    }

    predicate PeerEligible(level: nat)
    {
      level >= if minPeerLevel <= 0 then 3 else minPeerLevel
    }

    /** Community base rate of a level: the first tier row naming it, 0 when ungraded. */
    function RateFor(level: nat): int
    {
      if level == 0 then 0 else TierRate(tiers, level)
    }

    /** Level earned by a small-area volume. */
    function LevelFor(volume: int): nat
    {
      if volume <= 0 then 0 else BestLevel(tiers, volume)
    }

    /** What configuration validation leaves unchecked: base rates do not fall with the level. */
    ghost predicate RisingRates()
    {
      forall a: nat, b: nat :: a <= b <= 9 ==> RateFor(a) <= RateFor(b)
    }

    /** Enforced by ValidateBusinessParams. */
    ghost predicate TiersTo9()
    {
      forall t :: t in tiers ==> 1 <= t.level <= 9
    }

    ghost predicate NonnegativeRates()
    {
      && 0 <= generationRate
      && 0 <= peerRate
    }

    ghost predicate RateRange()
    {
      0 < rateMin <= rateMax && 0 < rateStep
    }
  }

  function TierRate(tiers: seq<CommunityTier>, level: nat): int
  {
    if tiers == [] then 0
    else if tiers[0].level == level then tiers[0].rate
    else TierRate(tiers[1..], level)
  }

  /** A level's rate is the one of the first row naming it. */
  lemma {:induction false} TierRateFirst(tiers: seq<CommunityTier>, level: nat, k: nat)
    requires k <= |tiers| && forall j :: 0 <= j < k ==> tiers[j].level != level
    ensures k < |tiers| && tiers[k].level == level ==> TierRate(tiers, level) == tiers[k].rate
    ensures k == |tiers| ==> TierRate(tiers, level) == 0
  {
    if k > 0 {
      TierRateFirst(tiers[1..], level, k - 1);
    }
  }

  /** The highest level whose threshold is met, whatever the order of the rows. */
  function BestLevel(tiers: seq<CommunityTier>, volume: int): (best: nat)
    ensures forall t :: t in tiers && t.minVolume <= volume ==> t.level <= best
    ensures best == 0 || exists t :: t in tiers && t.minVolume <= volume && t.level == best
  {
    if tiers == [] then 0
    else
      var rest := BestLevel(tiers[1..], volume);
      var t := tiers[0];
      assert t in tiers && forall s :: s in tiers ==> s == t || s in tiers[1..];
      assert forall s :: s in tiers[1..] ==> s in tiers;
      if t.minVolume <= volume && t.level > rest then t.level else rest
  }

  /** A level never falls when the volume does not fall. */
  lemma LevelMonotone(p: Params, v: int, w: int)
    requires v <= w
    ensures p.LevelFor(v) <= p.LevelFor(w)
  {
    if v > 0 && p.LevelFor(v) > 0 {
      var t :| t in p.tiers && t.minVolume <= v && t.level == p.LevelFor(v);
      assert t.minVolume <= w;
    }
  }

  // ---- loops of the source ----

  method LevelFromVolume(p: Params, volume: int) returns (best: nat)
    ensures best == p.LevelFor(volume)
    ensures volume > 0 ==> forall t :: t in p.tiers && t.minVolume <= volume ==> t.level <= best
  {
    if volume <= 0 {
      return 0;
    }
    best := 0;
    for i := 0 to |p.tiers|
      invariant forall k :: 0 <= k < i && p.tiers[k].minVolume <= volume ==> p.tiers[k].level <= best
      invariant best == 0 || exists k :: 0 <= k < i && p.tiers[k].minVolume <= volume && p.tiers[k].level == best
    {
      var t := p.tiers[i];
      if volume >= t.minVolume && t.level > best {
        best := t.level;
      }
    }
  }

  method RateForLevel(p: Params, level: nat) returns (rate: int)
    ensures rate == p.RateFor(level)
  {
    if level <= 0 {
      return 0;
    }
    for i := 0 to |p.tiers|
      invariant TierRate(p.tiers, level) == TierRate(p.tiers[i..], level)
    {
      if p.tiers[i].level == level {
        return p.tiers[i].rate;
      }
    }
    return 0;
  }
}
