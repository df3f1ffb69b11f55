/** The agreed parameters are those stored by default (params.go, DefaultBusinessParams). */
module Defaults {
  import opened Params
  import opened Text
  import opened Protocol
  import U = UseCases
  import C = Config

  /** Hundredths with two places, tenths with one when needed. */
  function Hundredths(n: nat): string
  {
    Numeral(n / 100) + "." + [DigitChar(n / 10 % 10), DigitChar(n % 10)]
  }

  function Tenths(n: nat): string
  {
    if n % 10 == 0 then Numeral(n / 10) else Numeral(n / 10) + "." + [DigitChar(n % 10)]
  }

  /** Whole USDT. */
  function Whole(amount: nat): string
  {
    Numeral(amount / 100_000_000)
  }

  /** The texts of b are the numbers of p. */
  ghost predicate WrittenAs(p: Params, b: C.BusinessParams)
    requires 0 <= p.extractFee && 0 <= p.generationRate && 0 <= p.peerRate && 0 <= p.minSubscribe && p.RateRange()
  {
    && b.extractFeeRate == Hundredths(p.extractFee) && b.generationRate == Hundredths(p.generationRate)
    && b.maxGenerationDepth == p.maxGenerationDepth && b.peerPoolRate == Hundredths(p.peerRate) && b.minPeerLevel == p.minPeerLevel
    && b.rateMin == Hundredths(p.rateMin) && b.rateMax == Hundredths(p.rateMax) && b.rateStep == Hundredths(p.rateStep)
    && b.minSubscribeAmount == Whole(p.minSubscribe)
    && |b.multiplierTiers| == |p.multipliers| && |b.communityTiers| == |p.tiers|
    && (forall i :: 0 <= i < |p.multipliers| ==> BandWritten(p.multipliers[i], b.multiplierTiers[i]))
    && (forall i :: 0 <= i < |p.tiers| ==> TierWritten(p.tiers[i], b.communityTiers[i]))
  }

  ghost predicate BandWritten(band: MultiplierTier, text: C.MultiplierTierParam)
  {
    && band.multiplier >= 0 && text.multiplier == Tenths(band.multiplier)
    && match band.lt
       case None => text.lt == ""
       case Some(lt) => lt >= 0 && text.lt == Whole(lt)
  }

  ghost predicate TierWritten(tier: CommunityTier, text: C.CommunityTierParam)
  {
    && text.level == tier.level && tier.minVolume >= 0 && tier.rate >= 0
    && text.minVolume == Whole(tier.minVolume) && text.rate == Hundredths(tier.rate)
  }

  function Zeros(k: nat): string
  {
    seq(k, _ => '0')
  }

  function Power(k: nat): nat
  {
    if k == 0 then 1 else 10 * Power(k - 1)
  }

  lemma NumeralZero(m: nat)
    requires m >= 1
    ensures Numeral(10 * m) == Numeral(m) + "0"
  {
    assert 10 * m / 10 == m && 10 * m % 10 == 0;
  }

  lemma {:induction false} NumeralZeros(n: nat, k: nat)
    requires n >= 1
    ensures n * Power(k) >= 1 && Numeral(n * Power(k)) == Numeral(n) + Zeros(k)
  {
    hide Numeral;
    if k > 0 {
      NumeralZeros(n, k - 1);
      var m := n * Power(k - 1);
      assert n * Power(k) == 10 * m;
      NumeralZero(m);
      assert Zeros(k) == Zeros(k - 1) + "0";
    }
  }

  /** A tier as written: n followed by k zeros. */
  lemma TierIs(i: nat, n: nat, k: nat)
    requires i < 9 && n >= 1 && Agreed.tiers[i].minVolume == n * Power(k) * U.USDT && Agreed.tiers[i].rate >= 0
    requires C.Default.communityTiers[i] == C.CommunityTierParam(Agreed.tiers[i].level, Numeral(n) + Zeros(k), Hundredths(Agreed.tiers[i].rate))
    ensures TierWritten(Agreed.tiers[i], C.Default.communityTiers[i])
  {
    NumeralZeros(n, k);
    assert Agreed.tiers[i].minVolume / 100_000_000 == n * Power(k);
  }

  lemma HighTiers(i: nat)
    requires i < 3
    ensures TierWritten(Agreed.tiers[i], C.Default.communityTiers[i])
  {
    hide TierWritten, Numeral;
    SmallNumerals();
    match i
    case 0 => TierIs(0, 2, 7);
    case 1 => TierIs(1, 1, 7);
    case _ => TierIs(2, 5, 6);
  }

  lemma MiddleTiers(i: nat)
    requires 3 <= i < 6
    ensures TierWritten(Agreed.tiers[i], C.Default.communityTiers[i])
  {
    hide TierWritten, Numeral;
    SmallNumerals();
    match i
    case 3 => TierIs(3, 15, 5);
    case 4 => TierIs(4, 5, 5);
    case _ => TierIs(5, 25, 4);
  }

  lemma LowTiers(i: nat)
    requires 6 <= i < 9
    ensures TierWritten(Agreed.tiers[i], C.Default.communityTiers[i])
  {
    hide TierWritten, Numeral;
    SmallNumerals();
    match i
    case 6 => TierIs(6, 8, 4);
    case 7 => TierIs(7, 2, 4);
    case _ => TierIs(8, 5, 3);
  }

  lemma SmallNumerals()
    ensures Numeral(0) == "0" && Numeral(1) == "1" && Numeral(2) == "2" && Numeral(3) == "3" && Numeral(5) == "5" && Numeral(8) == "8"
    ensures Numeral(15) == "15" && Numeral(25) == "25"
    ensures Numeral(100) == "100" && Numeral(1000) == "1000" && Numeral(3000) == "3000"
  {
  }

  /** The agreed parameters are the stored defaults. */
  lemma AgreedIsDefault()
    ensures WrittenAs(Agreed, C.Default)
  {
    hide Numeral, TierWritten;
    SmallNumerals();
    forall i: nat | i < 9
      ensures TierWritten(Agreed.tiers[i], C.Default.communityTiers[i])
    {
      if i < 3 {
        HighTiers(i);
      } else if i < 6 {
        MiddleTiers(i);
      } else {
        LowTiers(i);
      }
    }
  }
}
