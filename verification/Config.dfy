/** Business parameters as key/value rows (params_config.go, params.go): flattening, saving over
    whatever rows are stored, and reading back. */
module Config {
  import opened Arith
  import opened Text

  type Int64 = x: int | -0x8000_0000_0000_0000 <= x < 0x8000_0000_0000_0000

  datatype MultiplierTierParam = MultiplierTierParam(lt: string, multiplier: string)

  datatype CommunityTierParam = CommunityTierParam(level: int, minVolume: string, rate: string)

  datatype BusinessParams = BusinessParams(
    extractFeeRate: string,
    generationRate: string,
    maxGenerationDepth: Int64,
    peerPoolRate: string,
    minPeerLevel: Int64,
    rateMin: string,
    rateMax: string,
    rateStep: string,
    minSubscribeAmount: string,
    minWithdrawAmount: string,
    subscribeTiers: string,
    multiplierTiers: seq<MultiplierTierParam>,
    communityTiers: seq<CommunityTierParam>)

  const Default: BusinessParams := BusinessParams(
    "0.06", "0.05", 10, "0.10", 3, "0.60", "1.40", "0.05", "100", "10", "100,500,1000,3000",
    [MultiplierTierParam("1000", "2"), MultiplierTierParam("3000", "2.5"), MultiplierTierParam("", "3")],
    [CommunityTierParam(9, "20000000", "0.60"), CommunityTierParam(8, "10000000", "0.55"),
     CommunityTierParam(7, "5000000", "0.50"), CommunityTierParam(6, "1500000", "0.45"),
     CommunityTierParam(5, "500000", "0.40"), CommunityTierParam(4, "250000", "0.35"),
     CommunityTierParam(3, "80000", "0.30"), CommunityTierParam(2, "20000", "0.20"),
     CommunityTierParam(1, "5000", "0.10")])

  // ---- keys ----

  datatype Key =
    | ExtractFeeRate | GenerationRate | MaxGenerationDepth | PeerPoolRate | MinPeerLevel
    | RateMin | RateMi | RateMax | RateStep | MinSubscribeAmount | MinWithdrawAmount | SubscribeTiers
    | MultiplierLt(n: nat) | Multiplier(n: nat) | MinVolume(level: nat) | LevelRate(level: nat)

  /** config_key of a row. */
  function Spelling(k: Key): string
  {
    match k
    case ExtractFeeRate => "extract_fee_rate"
    case GenerationRate => "generation_rate"
    case MaxGenerationDepth => "max_generation_depth"
    case PeerPoolRate => "peer_pool_rate"
    case MinPeerLevel => "min_peer_level"
    case RateMin => "rate_min"
    case RateMi => "rate_mi"
    case RateMax => "rate_max"
    case RateStep => "rate_step"
    case MinSubscribeAmount => "min_subscribe_amount"
    case MinWithdrawAmount => "min_withdraw_amount"
    case SubscribeTiers => "subscribe_tiers"
    case MultiplierLt(n) => "multiplier_" + Numeral(n) + "_lt"
    case Multiplier(n) => "multiplier_" + Numeral(n) + "_multiplier"
    case MinVolume(level) => "community_v" + Numeral(level) + "_min_volume"
    case LevelRate(level) => "community_v" + Numeral(level) + "_rate"
  }

  /** Four letters that tell the kinds of keys apart. */
  function Mark(s: string): string
    requires |s| >= 5
  {
    [s[0], s[1], s[4], s[|s| - 2]]
  }

  function KindMark(k: Key): string
  {
    match k
    case ExtractFeeRate => "exat"
    case GenerationRate => "gert"
    case MaxGenerationDepth => "magt"
    case PeerPoolRate => "pe_t"
    case MinPeerLevel => "mipe"
    case RateMin => "ra_i"
    case RateMi => "ra_m"
    case RateMax => "ra_a"
    case RateStep => "ra_e"
    case MinSubscribeAmount => "misn"
    case MinWithdrawAmount => "miwn"
    case SubscribeTiers => "sucr"
    case MultiplierLt(_) => "muil"
    case Multiplier(_) => "muie"
    case MinVolume(_) => "coum"
    case LevelRate(_) => "cout"
  }

  lemma MarkOfSpelling(k: Key)
    ensures |Spelling(k)| >= 5 && Mark(Spelling(k)) == KindMark(k)
  {
    hide Numeral;
  }

  lemma NumeralBetween(prefix: string, a: nat, b: nat, suffix: string)
    requires prefix + Numeral(a) + suffix == prefix + Numeral(b) + suffix
    ensures a == b
  {
    hide Numeral;
    var x, y := Numeral(a), Numeral(b);
    assert |x| == |y|;
    forall i | 0 <= i < |x|
      ensures x[i] == y[i]
    {
      assert (prefix + x + suffix)[|prefix| + i] == x[i];
      assert (prefix + y + suffix)[|prefix| + i] == y[i];
    }
    assert x == y;
    NumeralInjective(a, b);
  }

  /** No two settings share a config_key, so a stored row belongs to one setting. */
  lemma SpellingInjective(a: Key, b: Key)
    requires Spelling(a) == Spelling(b)
    ensures a == b
  {
    hide Numeral, Mark;
    MarkOfSpelling(a);
    MarkOfSpelling(b);
    var m := KindMark(a);
    assert m == KindMark(b);
    assert m[0] == KindMark(b)[0] && m[1] == KindMark(b)[1] && m[2] == KindMark(b)[2] && m[3] == KindMark(b)[3];
    match a
    case MultiplierLt(n) => NumeralBetween("multiplier_", n, b.n, "_lt");
    case Multiplier(n) => NumeralBetween("multiplier_", n, b.n, "_multiplier");
    case MinVolume(level) => NumeralBetween("community_v", level, b.level, "_min_volume");
    case LevelRate(level) => NumeralBetween("community_v", level, b.level, "_rate");
    case _ =>
  }

  // ---- integers ----

  /** strconv.Itoa. */
  function Itoa(n: int): string
  {
    if n < 0 then "-" + Numeral(-n) else Numeral(n)
  }

  /** strconv.Atoi: an optional sign, digits, 64-bit range. */
  function Atoi(s: string): Option<Int64>
  {
    var signed := s != "" && (s[0] == '-' || s[0] == '+');
    var digits := if signed then s[1..] else s;
    if !IsNumeral(digits) then None
    else
      var v: int := Value(digits);
      var n := if signed && s[0] == '-' then -v else v;
      if -0x8000_0000_0000_0000 <= n < 0x8000_0000_0000_0000 then Some(n) else None
  }

  lemma AtoiOfItoa(n: Int64)
    ensures Atoi(Itoa(n)) == Some(n)
  {
    var k: nat := if n < 0 then -(n as int) else n as int;
    ValueOfNumeral(k);
    AtoiOfDigits(Numeral(k));
  }

  lemma AtoiOfDigits(digits: string)
    requires IsNumeral(digits)
    ensures Value(digits) < 0x8000_0000_0000_0000 ==> Atoi(digits) == Some(Value(digits))
    ensures Value(digits) <= 0x8000_0000_0000_0000 ==> Atoi("-" + digits) == Some(-(Value(digits) as int))
  {
    hide Value;
    assert '0' <= digits[0] <= '9';
    assert ("-" + digits)[1..] == digits;
  }

  // ---- flatten ----

  datatype Row = Row(key: Key, value: string)

  function FixedRows(p: BusinessParams): seq<Row>
  {
    [Row(ExtractFeeRate, p.extractFeeRate), Row(GenerationRate, p.generationRate),
     Row(MaxGenerationDepth, Itoa(p.maxGenerationDepth)), Row(PeerPoolRate, p.peerPoolRate),
     Row(MinPeerLevel, Itoa(p.minPeerLevel)), Row(RateMin, p.rateMin), Row(RateMax, p.rateMax),
     Row(RateStep, p.rateStep), Row(MinSubscribeAmount, p.minSubscribeAmount),
     Row(MinWithdrawAmount, p.minWithdrawAmount), Row(SubscribeTiers, p.subscribeTiers)]
  }

  function MultiplierRows(tiers: seq<MultiplierTierParam>): seq<Row>
  {
    if tiers == [] then []
    else
      var n := |tiers|;
      MultiplierRows(tiers[..n - 1]) + [Row(MultiplierLt(n), tiers[n - 1].lt), Row(Multiplier(n), tiers[n - 1].multiplier)]
  }

  /** The first row naming the level. */
  function FindTier(tiers: seq<CommunityTierParam>, level: int): (t: Option<CommunityTierParam>)
    ensures t.Some? ==> t.value in tiers && t.value.level == level
    ensures t.None? ==> forall i :: 0 <= i < |tiers| ==> tiers[i].level != level
  {
    if tiers == [] then None
    else if tiers[0].level == level then Some(tiers[0])
    else FindTier(tiers[1..], level)
  }

  /** Rows of levels low to 9, highest first. */
  function CommunityRows(tiers: seq<CommunityTierParam>, low: nat): seq<Row>
    requires low <= 10
    decreases 10 - low
  {
    if low == 10 then []
    else
      CommunityRows(tiers, low + 1)
      + match FindTier(tiers, low)
        case None => []
        case Some(t) => [Row(MinVolume(low), t.minVolume), Row(LevelRate(low), t.rate)]
  }

  function Flatten(p: BusinessParams): seq<Row>
  {
    FixedRows(p) + MultiplierRows(p.multiplierTiers) + CommunityRows(p.communityTiers, 1)
  }

  type Store = map<Key, string>

  /** Save: every row overwrites or creates its key; no stored row is deleted. */
  function Saved(m: Store, rows: seq<Row>): Store
  {
    if rows == [] then m
    else Saved(m, rows[..|rows| - 1])[rows[|rows| - 1].key := rows[|rows| - 1].value]
  }

  // ---- aggregate ----

  function Pick(m: Store, k: Key, fallback: string): string
  {
    if k in m then m[k] else fallback
  }

  /** Multiplier bands from number i on; None when a band has no multiplier. */
  function ReadMultipliers(m: Store, i: nat): (r: Option<seq<MultiplierTierParam>>)
    requires 1 <= i <= 21
    ensures r.Some? ==> |r.value| <= 21 - i
    decreases 21 - i
  {
    if i == 21 || (MultiplierLt(i) !in m && Multiplier(i) !in m) then Some([])
    else if Multiplier(i) !in m || Blank(m[Multiplier(i)]) then None
    else
      match ReadMultipliers(m, i + 1)
      case None => None
      case Some(rest) => Some([MultiplierTierParam(Pick(m, MultiplierLt(i), ""), m[Multiplier(i)])] + rest)
  }

  /** Community tiers of levels up to level, highest first; None when one is half given. */
  function ReadTiers(m: Store, level: nat): (r: Option<seq<CommunityTierParam>>)
    ensures r.Some? ==> forall i :: 0 <= i < |r.value| ==> 1 <= r.value[i].level <= level
  {
    if level == 0 then Some([])
    else
      match ReadTiers(m, level - 1)
      case None => None
      case Some(rest) =>
        if MinVolume(level) !in m && LevelRate(level) !in m then Some(rest)
        else if MinVolume(level) !in m || LevelRate(level) !in m then None
        else Some([CommunityTierParam(level, m[MinVolume(level)], m[LevelRate(level)])] + rest)
  }

  /** AggregateBusinessParams; None is its error. */
  function Aggregate(m: Store): Option<BusinessParams>
  {
    var depth := Atoi(Pick(m, MaxGenerationDepth, Itoa(Default.maxGenerationDepth)));
    var minPeer := Atoi(Pick(m, MinPeerLevel, Itoa(Default.minPeerLevel)));
    var multipliers, tiers := ReadMultipliers(m, 1), ReadTiers(m, 9);
    if depth.None? || minPeer.None? || multipliers.None? || tiers.None? then None
    else
      Some(BusinessParams(
             Pick(m, ExtractFeeRate, Default.extractFeeRate), Pick(m, GenerationRate, Default.generationRate),
             depth.value, Pick(m, PeerPoolRate, Default.peerPoolRate), minPeer.value,
             Pick(m, RateMin, Pick(m, RateMi, Default.rateMin)), Pick(m, RateMax, Default.rateMax),
             Pick(m, RateStep, Default.rateStep), Pick(m, MinSubscribeAmount, Default.minSubscribeAmount),
             Pick(m, MinWithdrawAmount, Default.minWithdrawAmount), Pick(m, SubscribeTiers, Default.subscribeTiers),
             if multipliers.value == [] then Default.multiplierTiers else multipliers.value,
             if tiers.value == [] then Default.communityTiers else tiers.value))
  }

  // ---- round trip ----

  /** The rows that count, by descending level: the first one of each level 1 to level. */
  function Listed(tiers: seq<CommunityTierParam>, level: nat): (r: seq<CommunityTierParam>)
    ensures forall i :: 0 <= i < |r| ==> 1 <= r[i].level <= level && r[i] in tiers
    ensures forall i, j :: 0 <= i < j < |r| ==> r[i].level > r[j].level
  {
    if level == 0 then []
    else
      match FindTier(tiers, level)
      case None => Listed(tiers, level - 1)
      case Some(t) => [t] + Listed(tiers, level - 1)
  }

  lemma {:induction false} SavedAppend(m: Store, a: seq<Row>, b: seq<Row>)
    ensures Saved(m, a + b) == Saved(Saved(m, a), b)
  {
    if b == [] {
      assert a + b == a;
    } else {
      assert (a + b)[..|a + b| - 1] == a + b[..|b| - 1];
      SavedAppend(m, a, b[..|b| - 1]);
    }
  }

  lemma SavedPair(m: Store, a: seq<Row>, x: Row, y: Row)
    ensures Saved(m, a + [x, y]) == Saved(m, a)[x.key := x.value][y.key := y.value]
  {
    assert (a + [x, y])[..|a| + 1] == a + [x] && (a + [x])[..|a|] == a;
  }

  lemma {:induction false} MultipliersSaved(m: Store, tiers: seq<MultiplierTierParam>, k: Key)
    ensures var after := Saved(m, MultiplierRows(tiers));
            && (k.MultiplierLt? && 1 <= k.n <= |tiers| ==> k in after && after[k] == tiers[k.n - 1].lt)
            && (k.Multiplier? && 1 <= k.n <= |tiers| ==> k in after && after[k] == tiers[k.n - 1].multiplier)
            && (!((k.MultiplierLt? || k.Multiplier?) && 1 <= k.n <= |tiers|) ==>
                  (k in after <==> k in m) && (k in m ==> after[k] == m[k]))
  {
    if tiers != [] {
      var n := |tiers|;
      var a, x, y := MultiplierRows(tiers[..n - 1]), Row(MultiplierLt(n), tiers[n - 1].lt), Row(Multiplier(n), tiers[n - 1].multiplier);
      MultipliersSaved(m, tiers[..n - 1], k);
      SavedPair(m, a, x, y);
    }
  }

  /** What after holds for k once the rows of levels low to 9 are saved over m. */
  ghost predicate TierKey(m: Store, after: Store, tiers: seq<CommunityTierParam>, low: nat, k: Key)
  {
    var kept := (k.MinVolume? || k.LevelRate?) && low <= k.level <= 9 && FindTier(tiers, k.level).Some?;
    && (k.MinVolume? && kept ==> k in after && after[k] == FindTier(tiers, k.level).value.minVolume)
    && (k.LevelRate? && kept ==> k in after && after[k] == FindTier(tiers, k.level).value.rate)
    && (!kept ==> (k in after <==> k in m) && (k in m ==> after[k] == m[k]))
  }

  lemma TierKeyStep(m: Store, before: Store, tiers: seq<CommunityTierParam>, low: nat, k: Key)
    requires low <= 9 && TierKey(m, before, tiers, low + 1, k)
    ensures match FindTier(tiers, low)
            case None => TierKey(m, before, tiers, low, k)
            case Some(t) => TierKey(m, before[MinVolume(low) := t.minVolume][LevelRate(low) := t.rate], tiers, low, k)
  {
    hide FindTier;
  }

  lemma {:induction false} TiersSaved(m: Store, tiers: seq<CommunityTierParam>, low: nat, k: Key)
    requires 1 <= low <= 10
    ensures TierKey(m, Saved(m, CommunityRows(tiers, low)), tiers, low, k)
    decreases 10 - low
  {
    if low < 10 {
      LevelRows(tiers, low);
      hide CommunityRows, Saved, FindTier, TierKey;
      TiersSaved(m, tiers, low + 1, k);
      var a := CommunityRows(tiers, low + 1);
      TierKeyStep(m, Saved(m, a), tiers, low, k);
      match FindTier(tiers, low)
      case None =>
      case Some(t) => SavedPair(m, a, Row(MinVolume(low), t.minVolume), Row(LevelRate(low), t.rate));
    }
  }

  lemma FixedSaved(m: Store, p: BusinessParams, k: Key)
    ensures var after := Saved(m, FixedRows(p));
            && (k.MultiplierLt? || k.Multiplier? || k.MinVolume? || k.LevelRate? ==>
                  (k in after <==> k in m) && (k in m ==> after[k] == m[k]))
            && (forall i :: 0 <= i < |FixedRows(p)| && FixedRows(p)[i].key == k ==> k in after && after[k] == FixedRows(p)[i].value)
  {
    FixedKeys(p);
    hide FixedRows, Saved;
    SavedRow(m, FixedRows(p), k);
  }

  lemma FixedKeys(p: BusinessParams)
    ensures forall i, j :: 0 <= i < j < |FixedRows(p)| ==> FixedRows(p)[i].key != FixedRows(p)[j].key
    ensures forall i :: 0 <= i < |FixedRows(p)| ==>
              var k := FixedRows(p)[i].key; !k.MultiplierLt? && !k.Multiplier? && !k.MinVolume? && !k.LevelRate?
  {
  }

  /** With distinct keys, saving stores each row's value and leaves other keys alone. */
  lemma {:induction false} SavedRow(m: Store, rows: seq<Row>, k: Key)
    requires forall i, j :: 0 <= i < j < |rows| ==> rows[i].key != rows[j].key
    ensures forall i :: 0 <= i < |rows| && rows[i].key == k ==> k in Saved(m, rows) && Saved(m, rows)[k] == rows[i].value
    ensures (forall i :: 0 <= i < |rows| ==> rows[i].key != k) ==>
              (k in Saved(m, rows) <==> k in m) && (k in m ==> Saved(m, rows)[k] == m[k])
  {
    if rows != [] {
      var n := |rows| - 1;
      var rest := rows[..n];
      assert forall i :: 0 <= i < n ==> rest[i] == rows[i];
      SavedRow(m, rest, k);
      assert Saved(m, rows) == Saved(m, rest)[rows[n].key := rows[n].value];
      hide Saved;
      if rows[n].key != k && forall i :: 0 <= i < |rows| ==> rows[i].key != k {
        assert forall i :: 0 <= i < |rest| ==> rest[i].key != k;
      }
    }
  }

  /** What reading a key gives after p was saved over m. */
  ghost predicate Stored(m: Store, p: BusinessParams, after: Store, k: Key)
  {
    var n := |p.multiplierTiers|;
    match k
    case MultiplierLt(i) =>
      if 1 <= i <= n then k in after && after[k] == p.multiplierTiers[i - 1].lt else Untouched(m, after, k)
    case Multiplier(i) =>
      if 1 <= i <= n then k in after && after[k] == p.multiplierTiers[i - 1].multiplier else Untouched(m, after, k)
    case MinVolume(level) =>
      if 1 <= level <= 9 && FindTier(p.communityTiers, level).Some?
      then k in after && after[k] == FindTier(p.communityTiers, level).value.minVolume else Untouched(m, after, k)
    case LevelRate(level) =>
      if 1 <= level <= 9 && FindTier(p.communityTiers, level).Some?
      then k in after && after[k] == FindTier(p.communityTiers, level).value.rate else Untouched(m, after, k)
    case _ =>
      forall i :: 0 <= i < |FixedRows(p)| && FixedRows(p)[i].key == k ==> k in after && after[k] == FixedRows(p)[i].value
  }

  ghost predicate Untouched(m: Store, after: Store, k: Key)
  {
    (k in after <==> k in m) && (k in m ==> after[k] == m[k])
  }

  /** Saving all rows is saving the single values, the bands and the levels, one after the other. */
  lemma FlattenSaved(m: Store, p: BusinessParams)
    ensures Saved(m, Flatten(p))
            == Saved(Saved(Saved(m, FixedRows(p)), MultiplierRows(p.multiplierTiers)), CommunityRows(p.communityTiers, 1))
  {
    hide FixedRows, Saved, MultiplierRows, CommunityRows;
    var a, b, c := FixedRows(p), MultiplierRows(p.multiplierTiers), CommunityRows(p.communityTiers, 1);
    SavedAppend(m, a + b, c);
    SavedAppend(m, a, b);
  }

  lemma FlattenStored(m: Store, p: BusinessParams, k: Key)
    ensures Stored(m, p, Saved(m, Flatten(p)), k)
  {
    hide FixedRows, Saved, MultiplierRows, CommunityRows, Flatten;
    var a, b, c := FixedRows(p), MultiplierRows(p.multiplierTiers), CommunityRows(p.communityTiers, 1);
    var fixed := Saved(m, a);
    var banded := Saved(fixed, b);
    var after := Saved(banded, c);
    FlattenSaved(m, p);
    FixedSaved(m, p, k);
    MultipliersSaved(fixed, p.multiplierTiers, k);
    TiersSaved(banded, p.communityTiers, 1, k);
    assert forall i :: 0 <= i < |a| && a[i].key == k ==> k in fixed && fixed[k] == a[i].value;
    match k
    case MultiplierLt(i) =>
    case Multiplier(i) =>
    case MinVolume(level) =>
    case LevelRate(level) =>
    case _ => assert Stored(m, p, after, k);
  }

  /** No band beyond the last one is stored. */
  ghost predicate NoNextBand(m: Store, n: nat)
  {
    n >= 20 || (MultiplierLt(n + 1) !in m && Multiplier(n + 1) !in m)
  }

  lemma SameHead<T>(x: T, a: seq<T>, b: seq<T>)
    ensures [x] + a == [x] + b <==> a == b
  {
    assert ([x] + a)[1..] == a && ([x] + b)[1..] == b;
  }

  lemma NoneBlank(tiers: seq<MultiplierTierParam>, i: nat)
    requires i < |tiers|
    ensures (forall j :: i <= j < |tiers| ==> !Blank(tiers[j].multiplier)) <==>
            !Blank(tiers[i].multiplier) && forall j :: i + 1 <= j < |tiers| ==> !Blank(tiers[j].multiplier)
  {
  }

  lemma {:induction false} MultipliersRead(m: Store, p: BusinessParams, after: Store, i: nat)
    requires 1 <= i <= 21 && i <= |p.multiplierTiers| + 1
    requires forall k :: Stored(m, p, after, k)
    ensures ReadMultipliers(after, i) == Some(p.multiplierTiers[i - 1..]) <==>
              && |p.multiplierTiers| <= 20
              && (forall j :: i - 1 <= j < |p.multiplierTiers| ==> !Blank(p.multiplierTiers[j].multiplier))
              && NoNextBand(m, |p.multiplierTiers|)
    decreases 21 - i
  {
    hide Blank, Stored;
    var tiers := p.multiplierTiers;
    var n := |tiers|;
    BandStored(m, p, after, i);
    assert |tiers[i - 1..]| == n - i + 1;
    assert i == n + 1 ==> tiers[i - 1..] == [];
    if i <= n && i < 21 {
      hide NoNextBand;
      NoneBlank(tiers, i - 1);
      MultipliersRead(m, p, after, i + 1);
      assert tiers[i - 1..] == [tiers[i - 1]] + tiers[i..];
      assert tiers[i - 1] == MultiplierTierParam(tiers[i - 1].lt, tiers[i - 1].multiplier);
      var rest := ReadMultipliers(after, i + 1);
      if rest.Some? {
        SameHead(tiers[i - 1], rest.value, tiers[i..]);
      }
    }
  }

  lemma BandStored(m: Store, p: BusinessParams, after: Store, i: nat)
    requires 1 <= i && Stored(m, p, after, MultiplierLt(i)) && Stored(m, p, after, Multiplier(i))
    ensures i <= |p.multiplierTiers| ==>
              && MultiplierLt(i) in after && after[MultiplierLt(i)] == p.multiplierTiers[i - 1].lt
              && Multiplier(i) in after && after[Multiplier(i)] == p.multiplierTiers[i - 1].multiplier
    ensures i > |p.multiplierTiers| ==>
              && (MultiplierLt(i) in after <==> MultiplierLt(i) in m)
              && (Multiplier(i) in after <==> Multiplier(i) in m)
  {
  }

  lemma TierStored(m: Store, p: BusinessParams, after: Store, level: nat)
    requires 1 <= level <= 9 && Stored(m, p, after, MinVolume(level)) && Stored(m, p, after, LevelRate(level))
    ensures match FindTier(p.communityTiers, level)
            case Some(t) => && MinVolume(level) in after && after[MinVolume(level)] == t.minVolume
                            && LevelRate(level) in after && after[LevelRate(level)] == t.rate
            case None => && (MinVolume(level) in after <==> MinVolume(level) in m)
                         && (LevelRate(level) in after <==> LevelRate(level) in m)
  {
  }

  /** No row of a level that p does not name is stored. */
  ghost predicate NoOtherLevel(m: Store, p: BusinessParams, level: nat)
  {
    FindTier(p.communityTiers, level).None? ==> MinVolume(level) !in m && LevelRate(level) !in m
  }

  lemma {:induction false} TiersRead(m: Store, p: BusinessParams, after: Store, level: nat)
    requires level <= 9
    requires forall k :: Stored(m, p, after, k)
    ensures ReadTiers(after, level) == Some(Listed(p.communityTiers, level)) <==>
              forall l :: 1 <= l <= level ==> NoOtherLevel(m, p, l)
  {
    hide Stored;
    if level > 0 {
      TiersRead(m, p, after, level - 1);
      TierStored(m, p, after, level);
      var rest, listed := ReadTiers(after, level - 1), Listed(p.communityTiers, level - 1);
      assert (forall l :: 1 <= l <= level ==> NoOtherLevel(m, p, l)) <==>
             NoOtherLevel(m, p, level) && forall l :: 1 <= l <= level - 1 ==> NoOtherLevel(m, p, l);
      match FindTier(p.communityTiers, level)
      case Some(t) =>
        assert t == CommunityTierParam(level, t.minVolume, t.rate);
        if rest.Some? {
          SameHead(t, rest.value, listed);
        }
      case None =>
        var read := ReadTiers(after, level);
        assert read.Some? && read != rest ==> read.value[0].level == level;
        assert forall i :: 0 <= i < |listed| ==> listed[i].level < level;
    }
  }

  lemma {:induction false} TiersReadEmpty(m: Store, p: BusinessParams, after: Store, level: nat)
    requires level <= 9
    requires forall k :: Stored(m, p, after, k)
    ensures ReadTiers(after, level) == Some([]) ==> Listed(p.communityTiers, level) == []
  {
    hide Stored;
    if level > 0 {
      TiersReadEmpty(m, p, after, level - 1);
      TierStored(m, p, after, level);
    }
  }

  lemma MultipliersReadEmpty(m: Store, p: BusinessParams, after: Store)
    requires forall k :: Stored(m, p, after, k)
    ensures ReadMultipliers(after, 1) == Some([]) ==> p.multiplierTiers == []
  {
    hide Stored;
    BandStored(m, p, after, 1);
  }

  /** What p must satisfy to be read back at all. */
  ghost predicate Storable(p: BusinessParams)
  {
    && 1 <= |p.multiplierTiers| <= 20
    && (forall t :: t in p.multiplierTiers ==> !Blank(t.multiplier))
    && (exists t :: t in p.communityTiers && 1 <= t.level <= 9)
  }

  /** The store holds no band or level that p does not overwrite and reading would pick up. */
  ghost predicate NoLeftovers(m: Store, p: BusinessParams)
  {
    && NoNextBand(m, |p.multiplierTiers|)
    && forall l :: 1 <= l <= 9 ==> NoOtherLevel(m, p, l)
  }

  lemma {:induction false} ListedSomething(tiers: seq<CommunityTierParam>, level: nat)
    ensures Listed(tiers, level) != [] <==> exists t :: t in tiers && 1 <= t.level <= level
  {
    if level > 0 {
      ListedSomething(tiers, level - 1);
      if Listed(tiers, level) == [] {
        forall t | t in tiers
          ensures !(1 <= t.level <= level)
        {
          var i :| 0 <= i < |tiers| && tiers[i] == t;
        }
      } else {
        assert Listed(tiers, level)[0] in tiers;
      }
    }
  }

  ghost predicate Reads(after: Store, k: Key, value: string)
  {
    k in after && after[k] == value
  }

  lemma FixedRead(m: Store, p: BusinessParams, after: Store)
    requires forall k :: Stored(m, p, after, k)
    ensures Reads(after, ExtractFeeRate, p.extractFeeRate) && Reads(after, GenerationRate, p.generationRate)
    ensures Reads(after, MaxGenerationDepth, Itoa(p.maxGenerationDepth)) && Reads(after, PeerPoolRate, p.peerPoolRate)
    ensures Reads(after, MinPeerLevel, Itoa(p.minPeerLevel)) && Reads(after, RateMin, p.rateMin)
    ensures Reads(after, RateMax, p.rateMax) && Reads(after, RateStep, p.rateStep)
    ensures Reads(after, MinSubscribeAmount, p.minSubscribeAmount)
    ensures Reads(after, MinWithdrawAmount, p.minWithdrawAmount) && Reads(after, SubscribeTiers, p.subscribeTiers)
  {
    hide Itoa;
    var rows := FixedRows(p);
    forall i | 0 <= i < |rows|
      ensures Reads(after, rows[i].key, rows[i].value)
    {
      assert Stored(m, p, after, rows[i].key);
    }
    assert Reads(after, rows[0].key, rows[0].value) && Reads(after, rows[1].key, rows[1].value);
    assert Reads(after, rows[2].key, rows[2].value) && Reads(after, rows[3].key, rows[3].value);
    assert Reads(after, rows[4].key, rows[4].value) && Reads(after, rows[5].key, rows[5].value);
    assert Reads(after, rows[6].key, rows[6].value) && Reads(after, rows[7].key, rows[7].value);
    assert Reads(after, rows[8].key, rows[8].value) && Reads(after, rows[9].key, rows[9].value);
    assert Reads(after, rows[10].key, rows[10].value);
  }

  /** Saving p over a store and reading back gives p, community tiers by descending level, if and
      only if p is storable and nothing stale is left: Save never deletes rows. */
  lemma SaveThenLoad(m: Store, p: BusinessParams)
    ensures Aggregate(Saved(m, Flatten(p))) == Some(p.(communityTiers := Listed(p.communityTiers, 9))) <==>
              Storable(p) && NoLeftovers(m, p)
  {
    hide Flatten, Saved, Stored, NoNextBand, NoOtherLevel, Blank, ReadTiers, ReadMultipliers, Aggregate, Listed;
    var after := Saved(m, Flatten(p));
    forall k
      ensures Stored(m, p, after, k)
    {
      FlattenStored(m, p, k);
    }
    MultipliersRead(m, p, after, 1);
    MultipliersReadEmpty(m, p, after);
    TiersRead(m, p, after, 9);
    TiersReadEmpty(m, p, after, 9);
    AggregateOfStored(m, p, after);
    ListedSomething(p.communityTiers, 9);
    assert p.multiplierTiers[0..] == p.multiplierTiers;
    assert (forall t :: t in p.multiplierTiers ==> !Blank(t.multiplier)) <==>
           (forall j :: 0 <= j < |p.multiplierTiers| ==> !Blank(p.multiplierTiers[j].multiplier));
  }

  /** On an empty table: the round trip of the two functions alone. */
  lemma RoundTrip(p: BusinessParams)
    ensures Aggregate(Saved(map[], Flatten(p))) == Some(p.(communityTiers := Listed(p.communityTiers, 9))) <==> Storable(p)
  {
    hide Aggregate, Saved, Flatten, Listed, Storable, FindTier;
    SaveThenLoad(map[], p);
  }

  /** Saving fewer bands than are stored does not take effect: the old third band stays. */
  lemma ShorterSaveKeepsOldBand()
    ensures var stored, p := Saved(map[], Flatten(Default)), Default.(multiplierTiers := Default.multiplierTiers[..2]);
            Aggregate(Saved(stored, Flatten(p))) != Some(p.(communityTiers := Listed(p.communityTiers, 9)))
  {
    hide Aggregate, Saved, Flatten, Listed, FindTier;
    var stored, p := Saved(map[], Flatten(Default)), Default.(multiplierTiers := Default.multiplierTiers[..2]);
    FlattenStored(map[], Default, Multiplier(3));
    SaveThenLoad(stored, p);
    assert |Default.multiplierTiers| == 3 && |p.multiplierTiers| == 2;
    assert !NoNextBand(stored, 2);
  }

  /** Only the two tier lists can come back different. */
  lemma AggregateOfStored(m: Store, p: BusinessParams, after: Store)
    requires forall k :: Stored(m, p, after, k)
    ensures var bands, tiers := ReadMultipliers(after, 1), ReadTiers(after, 9);
            Aggregate(after) ==
            if bands.None? || tiers.None? then None
            else Some(p.(multiplierTiers := if bands.value == [] then Default.multiplierTiers else bands.value,
                         communityTiers := if tiers.value == [] then Default.communityTiers else tiers.value))
  {
    hide Stored, ReadTiers, ReadMultipliers, Atoi, Itoa;
    FixedRead(m, p, after);
    AtoiOfItoa(p.maxGenerationDepth);
    AtoiOfItoa(p.minPeerLevel);
  }

  // ---- nothing is lost ----

  lemma {:induction false} FindDistinct(tiers: seq<CommunityTierParam>, t: CommunityTierParam)
    requires t in tiers && forall i, j :: 0 <= i < j < |tiers| ==> tiers[i].level != tiers[j].level
    ensures FindTier(tiers, t.level) == Some(t)
  {
    if tiers[0] != t {
      var i :| 0 <= i < |tiers| && tiers[i] == t;
      assert tiers[1..][i - 1] == t;
      FindDistinct(tiers[1..], t);
    }
  }

  lemma {:induction false} ListedHas(tiers: seq<CommunityTierParam>, t: CommunityTierParam, level: nat)
    requires t in tiers && forall i, j :: 0 <= i < j < |tiers| ==> tiers[i].level != tiers[j].level
    requires 1 <= t.level <= level
    ensures t in Listed(tiers, level)
  {
    FindDistinct(tiers, t);
    if t.level < level {
      ListedHas(tiers, t, level - 1);
    }
  }

  lemma {:induction false} CountOnce<T>(s: seq<T>, x: T)
    requires forall i, j :: 0 <= i < j < |s| ==> s[i] != s[j]
    ensures multiset(s)[x] == if x in s then 1 else 0
  {
    if s != [] {
      var n := |s| - 1;
      assert s == s[..n] + [s[n]];
      CountOnce(s[..n], x);
    }
  }

  /** With distinct levels from 1 to 9, the tiers read back are the saved ones, rearranged. */
  lemma ListedIsRearranged(tiers: seq<CommunityTierParam>)
    requires forall i, j :: 0 <= i < j < |tiers| ==> tiers[i].level != tiers[j].level
    requires forall t :: t in tiers ==> 1 <= t.level <= 9
    ensures multiset(Listed(tiers, 9)) == multiset(tiers)
  {
    var listed := Listed(tiers, 9);
    forall t: CommunityTierParam
      ensures multiset(listed)[t] == multiset(tiers)[t]
    {
      CountOnce(listed, t);
      CountOnce(tiers, t);
      if t in tiers {
        ListedHas(tiers, t, 9);
      }
    }
  }

  // ---- loops of the source ----

  method FlattenBusinessParams(p: BusinessParams) returns (rows: seq<Row>)
    ensures rows == Flatten(p)
  {
    hide FixedRows, MultiplierRows, CommunityRows, FindTier;
    rows := FixedRows(p);
    var tiers := p.multiplierTiers;
    ghost var done: seq<Row> := [];
    BandRows(tiers, 0);
    for i := 0 to |tiers|
      invariant done == MultiplierRows(tiers[..i]) && rows == FixedRows(p) + done
    {
      BandRows(tiers, i);
      rows := rows + [Row(MultiplierLt(i + 1), tiers[i].lt), Row(Multiplier(i + 1), tiers[i].multiplier)];
      done := done + [Row(MultiplierLt(i + 1), tiers[i].lt), Row(Multiplier(i + 1), tiers[i].multiplier)];
    }
    assert tiers[..|tiers|] == tiers;
    ghost var head := rows;
    LevelRows(p.communityTiers, 9);
    done := [];
    var level := 9;
    while level >= 1
      invariant 0 <= level <= 9
      invariant done == CommunityRows(p.communityTiers, level + 1) && rows == head + done
    {
      LevelRows(p.communityTiers, level);
      var t := FindTier(p.communityTiers, level);
      if t.Some? {
        rows := rows + [Row(MinVolume(level), t.value.minVolume), Row(LevelRate(level), t.value.rate)];
        done := done + [Row(MinVolume(level), t.value.minVolume), Row(LevelRate(level), t.value.rate)];
      }
      level := level - 1;
    }
  }

  lemma BandRows(tiers: seq<MultiplierTierParam>, i: nat)
    ensures MultiplierRows(tiers[..0]) == []
    ensures i < |tiers| ==>
              MultiplierRows(tiers[..i + 1]) ==
              MultiplierRows(tiers[..i]) + [Row(MultiplierLt(i + 1), tiers[i].lt), Row(Multiplier(i + 1), tiers[i].multiplier)]
  {
    if i < |tiers| {
      assert tiers[..i + 1][..i] == tiers[..i];
    }
  }

  lemma LevelRows(tiers: seq<CommunityTierParam>, level: nat)
    requires level <= 9
    ensures CommunityRows(tiers, 10) == []
    ensures match FindTier(tiers, level)
            case None => CommunityRows(tiers, level) == CommunityRows(tiers, level + 1)
            case Some(t) => CommunityRows(tiers, level) ==
                            CommunityRows(tiers, level + 1) + [Row(MinVolume(level), t.minVolume), Row(LevelRate(level), t.rate)]
  {
  }

  method AggregateBusinessParams(m: Store) returns (r: Option<BusinessParams>)
    ensures r == Aggregate(m)
  {
    hide Blank, Atoi, Itoa;
    var depth := Atoi(Pick(m, MaxGenerationDepth, Itoa(Default.maxGenerationDepth)));
    if depth.None? {
      return None;
    }
    var minPeer := Atoi(Pick(m, MinPeerLevel, Itoa(Default.minPeerLevel)));
    if minPeer.None? {
      return None;
    }
    var multipliers: seq<MultiplierTierParam>, i := [], 1;
    PrependedEnds<MultiplierTierParam>([], ReadMultipliers(m, 1));
    while i <= 20
      invariant 1 <= i <= 21
      invariant ReadMultipliers(m, 1) == Prepended(multipliers, ReadMultipliers(m, i))
    {
      if MultiplierLt(i) !in m && Multiplier(i) !in m {
        break;
      }
      if Multiplier(i) !in m || Blank(m[Multiplier(i)]) {
        return None;
      }
      PrependedStep(multipliers, MultiplierTierParam(Pick(m, MultiplierLt(i), ""), m[Multiplier(i)]), ReadMultipliers(m, i + 1));
      multipliers := multipliers + [MultiplierTierParam(Pick(m, MultiplierLt(i), ""), m[Multiplier(i)])];
      i := i + 1;
    }
    PrependedEnds(multipliers, None);
    if |multipliers| == 0 {
      multipliers := Default.multiplierTiers;
    }
    var communities: seq<CommunityTierParam>, level := [], 9;
    PrependedEnds<CommunityTierParam>([], ReadTiers(m, 9));
    while level >= 1
      invariant 0 <= level <= 9
      invariant ReadTiers(m, 9) == Prepended(communities, ReadTiers(m, level))
    {
      var v, r := MinVolume(level), LevelRate(level);
      if v in m && r in m {
        PrependedStep(communities, CommunityTierParam(level, m[v], m[r]), ReadTiers(m, level - 1));
        communities := communities + [CommunityTierParam(level, m[v], m[r])];
      } else if v in m || r in m {
        return None;
      }
      level := level - 1;
    }
    PrependedEnds(communities, None);
    if |communities| == 0 {
      communities := Default.communityTiers;
    }
    return Some(BusinessParams(
                  Pick(m, ExtractFeeRate, Default.extractFeeRate), Pick(m, GenerationRate, Default.generationRate),
                  depth.value, Pick(m, PeerPoolRate, Default.peerPoolRate), minPeer.value,
                  Pick(m, RateMin, Pick(m, RateMi, Default.rateMin)), Pick(m, RateMax, Default.rateMax),
                  Pick(m, RateStep, Default.rateStep), Pick(m, MinSubscribeAmount, Default.minSubscribeAmount),
                  Pick(m, MinWithdrawAmount, Default.minWithdrawAmount), Pick(m, SubscribeTiers, Default.subscribeTiers),
                  multipliers, communities));
  }

  function Prepended<T>(done: seq<T>, rest: Option<seq<T>>): Option<seq<T>>
  {
    match rest
    case None => None
    case Some(more) => Some(done + more)
  }

  lemma PrependedEnds<T>(done: seq<T>, rest: Option<seq<T>>)
    ensures Prepended([], rest) == rest
    ensures Prepended(done, Some([])) == Some(done)
  {
    assert done + [] == done;
    assert rest.Some? ==> [] + rest.value == rest.value;
  }

  lemma PrependedStep<T>(done: seq<T>, x: T, rest: Option<seq<T>>)
    ensures Prepended(done + [x], rest) == Prepended(done, if rest.Some? then Some([x] + rest.value) else None)
  {
    if rest.Some? {
      assert (done + [x]) + rest.value == done + ([x] + rest.value);
    }
  }
}
