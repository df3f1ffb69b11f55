/** How stored rows read back as business parameters, row by row (params_config.go,
    AggregateBusinessParams). */
module ConfigRule {
  import opened Arith
  import opened Text
  import opened Config

  /** A number is digits, plain or with a sign, within 64 bits. */
  lemma AtoiReads(s: string)
    ensures Atoi(s).Some? <==>
              || (IsNumeral(s) && Value(s) < 0x8000_0000_0000_0000)
              || (s != "" && s[0] == '+' && IsNumeral(s[1..]) && Value(s[1..]) < 0x8000_0000_0000_0000)
              || (s != "" && s[0] == '-' && IsNumeral(s[1..]) && Value(s[1..]) <= 0x8000_0000_0000_0000)
    ensures Atoi(s).Some? && IsNumeral(s) ==> Atoi(s).value == Value(s)
    ensures Atoi(s).Some? && !IsNumeral(s) ==> Atoi(s).value == if s[0] == '+' then Value(s[1..]) as int else 0 - Value(s[1..]) as int
  {
    hide Value;
  }

  /** text is the stored value of k, or the fallback when k is not stored. */
  ghost predicate Reads(m: Store, k: Key, fallback: string, text: string)
  {
    (k in m ==> text == m[k]) && (k !in m ==> text == fallback)
  }

  /** Band n has a multiplier that is not blank, and its own bound or none. */
  ghost predicate BandRead(m: Store, n: nat, band: MultiplierTierParam)
  {
    && Multiplier(n) in m && !Blank(m[Multiplier(n)]) && band.multiplier == m[Multiplier(n)]
    && Reads(m, MultiplierLt(n), "", band.lt)
  }

  /** The bands are rows 1 to n, up to the first number of which nothing is stored, at most twenty. */
  ghost predicate BandsRead(m: Store, i: nat, bands: seq<MultiplierTierParam>)
  {
    && i + |bands| <= 21
    && (forall j :: 0 <= j < |bands| ==> BandRead(m, i + j, bands[j]))
    && (i + |bands| < 21 ==> MultiplierLt(i + |bands|) !in m && Multiplier(i + |bands|) !in m)
  }

  /** Some row of a band before the end has a bound without a multiplier, or a blank one. */
  ghost predicate BandBroken(m: Store, i: nat, j: nat)
  {
    && i + j < 21
    && (forall k :: i <= k < i + j ==> MultiplierLt(k) in m || Multiplier(k) in m)
    && (MultiplierLt(i + j) in m || Multiplier(i + j) in m)
    && (Multiplier(i + j) in m ==> Blank(m[Multiplier(i + j)]))
  }

  lemma {:induction false} BandsAre(m: Store, i: nat)
    requires 1 <= i <= 21
    ensures match ReadMultipliers(m, i)
            case Some(bands) => BandsRead(m, i, bands)
            case None => exists j: nat :: BandBroken(m, i, j)
    decreases 21 - i
  {
    hide Blank;
    if i < 21 && (MultiplierLt(i) in m || Multiplier(i) in m) {
      if Multiplier(i) !in m || Blank(m[Multiplier(i)]) {
        assert BandBroken(m, i, 0);
      } else {
        BandsAre(m, i + 1);
        match ReadMultipliers(m, i + 1)
        case Some(rest) =>
          var bands := ReadMultipliers(m, i).value;
          assert forall j :: 1 <= j < |bands| ==> bands[j] == rest[j - 1];
          MoreBands(m, i, rest, bands);
        case None =>
          var j: nat :| BandBroken(m, i + 1, j);
          assert BandBroken(m, i, j + 1);
      }
    }
  }

  lemma MoreBands(m: Store, i: nat, rest: seq<MultiplierTierParam>, bands: seq<MultiplierTierParam>)
    requires BandsRead(m, i + 1, rest) && |bands| == |rest| + 1 && forall j :: 1 <= j < |bands| ==> bands[j] == rest[j - 1]
    requires BandRead(m, i, bands[0])
    ensures BandsRead(m, i, bands)
  {
    hide BandRead;
    forall j | 0 <= j < |bands|
      ensures BandRead(m, i + j, bands[j])
    {
      if j > 0 {
        assert BandRead(m, i + 1 + (j - 1), rest[j - 1]);
      }
    }
  }

  /** The tiers read are those of levels 9 to 1 of which both values are stored, highest first. */
  ghost predicate TiersRead(m: Store, level: nat, tiers: seq<CommunityTierParam>)
  {
    && (forall i, j :: 0 <= i < j < |tiers| ==> tiers[i].level > tiers[j].level)
    && (forall t :: t in tiers <==> 1 <= t.level <= level && MinVolume(t.level) in m && LevelRate(t.level) in m
                                    && t.minVolume == m[MinVolume(t.level)] && t.rate == m[LevelRate(t.level)])
    && (forall l :: 1 <= l <= level ==> (MinVolume(l) in m <==> LevelRate(l) in m))
  }

  lemma {:induction false} TiersAre(m: Store, level: nat)
    ensures match ReadTiers(m, level)
            case Some(tiers) => TiersRead(m, level, tiers)
            case None => exists l :: 1 <= l <= level && (MinVolume(l) in m) != (LevelRate(l) in m)
  {
    if level > 0 {
      TiersAre(m, level - 1);
      if ReadTiers(m, level - 1).Some? && ReadTiers(m, level).Some? {
        MoreTiers(m, level, ReadTiers(m, level - 1).value, ReadTiers(m, level).value);
      }
    }
  }

  lemma MoreTiers(m: Store, level: nat, rest: seq<CommunityTierParam>, tiers: seq<CommunityTierParam>)
    requires level > 0 && TiersRead(m, level - 1, rest) && (MinVolume(level) in m <==> LevelRate(level) in m)
    requires tiers == if MinVolume(level) in m then [CommunityTierParam(level, m[MinVolume(level)], m[LevelRate(level)])] + rest else rest
    ensures TiersRead(m, level, tiers)
  {
    assert forall t :: t in tiers <==> t in rest || (MinVolume(level) in m && t == CommunityTierParam(level, m[MinVolume(level)], m[LevelRate(level)]));
    assert forall i :: 0 <= i < |rest| ==> rest[i] in rest;
  }

  /** Every setting read is its stored row, or the default text where there is none; the lowest rate also
      knows an older key; without any band or tier stored the defaults are taken. */
  lemma SettingsRead(m: Store)
    requires Aggregate(m).Some?
    ensures var r := Aggregate(m).value;
            && Reads(m, ExtractFeeRate, "0.06", r.extractFeeRate) && Reads(m, GenerationRate, "0.05", r.generationRate)
            && Reads(m, PeerPoolRate, "0.10", r.peerPoolRate) && Reads(m, RateMax, "1.40", r.rateMax) && Reads(m, RateStep, "0.05", r.rateStep)
            && (RateMin in m ==> r.rateMin == m[RateMin]) && (RateMin !in m ==> Reads(m, RateMi, "0.60", r.rateMin))
            && Reads(m, MinSubscribeAmount, "100", r.minSubscribeAmount) && Reads(m, MinWithdrawAmount, "10", r.minWithdrawAmount)
            && Reads(m, SubscribeTiers, "100,500,1000,3000", r.subscribeTiers)
            && (if MaxGenerationDepth in m then Atoi(m[MaxGenerationDepth]) == Some(r.maxGenerationDepth) else r.maxGenerationDepth == 10)
            && (if MinPeerLevel in m then Atoi(m[MinPeerLevel]) == Some(r.minPeerLevel) else r.minPeerLevel == 3)
            && (if MultiplierLt(1) !in m && Multiplier(1) !in m then r.multiplierTiers == Default.multiplierTiers
                else BandsRead(m, 1, r.multiplierTiers))
            && (if forall l :: 1 <= l <= 9 ==> MinVolume(l) !in m then r.communityTiers == Default.communityTiers
                else TiersRead(m, 9, r.communityTiers))
  {
    hide Blank, Atoi, Itoa;
    BandsAre(m, 1);
    TiersAre(m, 9);
    AtoiOfItoa(10);
    AtoiOfItoa(3);
    hide ReadMultipliers, ReadTiers;
    var bands, tiers := ReadMultipliers(m, 1).value, ReadTiers(m, 9).value;
    FirstBand(m, bands);
    SomeTier(m, tiers);
  }

  lemma FirstBand(m: Store, bands: seq<MultiplierTierParam>)
    requires BandsRead(m, 1, bands)
    ensures bands == [] <==> MultiplierLt(1) !in m && Multiplier(1) !in m
  {
    if bands != [] {
      assert BandRead(m, 1 + 0, bands[0]);
    }
  }

  lemma SomeTier(m: Store, tiers: seq<CommunityTierParam>)
    requires TiersRead(m, 9, tiers)
    ensures tiers == [] <==> forall l :: 1 <= l <= 9 ==> MinVolume(l) !in m
  {
    if tiers == [] {
      forall l | 1 <= l <= 9
        ensures MinVolume(l) !in m
      {
        var t := CommunityTierParam(l, if MinVolume(l) in m then m[MinVolume(l)] else "", if LevelRate(l) in m then m[LevelRate(l)] else "");
        assert t !in tiers;
      }
    } else {
      assert tiers[0] in tiers;
    }
  }

  /** Reading fails exactly when a number is no 64-bit integer, a band breaks off, or a level is half
      stored. */
  lemma ReadingFails(m: Store)
    ensures Aggregate(m).None?
       <==> || (MaxGenerationDepth in m && Atoi(m[MaxGenerationDepth]).None?) || (MinPeerLevel in m && Atoi(m[MinPeerLevel]).None?)
            || (exists j: nat :: BandBroken(m, 1, j)) || (exists l :: 1 <= l <= 9 && (MinVolume(l) in m) != (LevelRate(l) in m))
  {
    hide Blank, Atoi, Itoa;
    BandsAre(m, 1);
    TiersAre(m, 9);
    AtoiOfItoa(10);
    AtoiOfItoa(3);
    hide ReadMultipliers, ReadTiers;
    if ReadMultipliers(m, 1).Some? {
      NotBroken(m, ReadMultipliers(m, 1).value);
    }
  }

  lemma NotBroken(m: Store, bands: seq<MultiplierTierParam>)
    requires BandsRead(m, 1, bands)
    ensures forall j: nat :: !BandBroken(m, 1, j)
  {
    hide Blank;
    forall j: nat
      ensures !BandBroken(m, 1, j)
    {
      if j < |bands| {
        assert BandRead(m, 1 + j, bands[j]);
      } else if j > |bands| && 1 + j < 21 {
        assert MultiplierLt(1 + |bands|) !in m && Multiplier(1 + |bands|) !in m;
      }
    }
  }
}
