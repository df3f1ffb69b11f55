/** The daily rate cycle of an order and its withdrawal turn (rate.go). */
module Rate {
  import opened Arith
  import opened Params

  datatype Direction = Up | Down

  /** Rate fields of one order. */
  datatype Cycle = Cycle(rate: int, direction: Direction, turnPending: bool, lastSettled: Option<int>)

  function AdvanceRate(p: Params, current: int, direction: Direction): (int, Direction)
  {
    if direction.Up? then
      var next := current + p.rateStep;
      if next > p.rateMax then (Max(p.rateMax - p.rateStep, p.rateMin), Down)
      else if next == p.rateMax then (p.rateMax, Down)
      else (next, Up)
    else
      var next := current - p.rateStep;
      if next < p.rateMin then (Min(p.rateMin + p.rateStep, p.rateMax), Up)
      else if next == p.rateMin then (p.rateMin, Up)
      else (next, Down)
  }

  /** Rate a withdrawal rewrites an order to, if it turns the order at all. */
  function ApplyExtractRateTurn(p: Params, direction: Direction, lastSettled: Option<int>): Option<(int, Direction)>
  {
    if direction.Down? || lastSettled.None? then None
    else if lastSettled.value == p.rateMin then Some((p.rateMin, Up))
    else Some(AdvanceRate(p, lastSettled.value, Down))
  }

  /** Amount times percent rate, in money units: rates are hundredths of a percent. */
  function StaticYield(amount: int, rate: int): int
  {
    RoundDiv(amount * rate, 10000)
  }

  function InitialCycle(p: Params): Cycle
  {
    Cycle(p.rateMin, Up, false, None)
  }

  /** A settlement that pays the order: remember the rate used, lift the turn, advance. */
  function Settle(p: Params, c: Cycle): Cycle
  {
    var (rate, direction) := AdvanceRate(p, c.rate, c.direction);
    Cycle(rate, direction, false, Some(c.rate))
  }

  /** A settlement whose yield rounds to nothing: no advance. */
  function SettleNothing(c: Cycle): Cycle
  {
    c.(turnPending := false, lastSettled := Some(c.rate))
  }

  /** A withdrawal: at most one turn between settlements. */
  function Turn(p: Params, c: Cycle): Cycle
  {
    if c.turnPending then c
    else
      match ApplyExtractRateTurn(p, c.direction, c.lastSettled)
      case None => c
      case Some(next) => c.(rate := next.0, direction := next.1, turnPending := true)
  }

  // ---- range ----

  ghost predicate InRange(p: Params, rate: int)
  {
    p.rateMin <= rate <= p.rateMax
  }

  /** Any step keeps an in-range rate in range, on the grid or not. */
  lemma AdvanceStaysInRange(p: Params, rate: int, direction: Direction)
    requires p.RateRange() && InRange(p, rate)
    ensures InRange(p, AdvanceRate(p, rate, direction).0)
  {
  }

  /** The settled rate a turn starts from stays in range through every event. */
  ghost predicate CycleInRange(p: Params, c: Cycle)
  {
    InRange(p, c.rate) && (c.lastSettled.Some? ==> InRange(p, c.lastSettled.value))
  }

  // ---- the triangle wave ----

  /** The step divides the range into n >= 1 equal parts. */
  ghost predicate OnGrid(p: Params, n: nat)
  {
    p.RateRange() && n >= 1 && p.rateMax == p.rateMin + n * p.rateStep
  }

  /** Rate and direction at phase k of the cycle of length 2n. */
  function Phase(p: Params, n: nat, k: nat): (int, Direction)
    requires k < 2 * n
  {
    if k < n then (p.rateMin + k * p.rateStep, Up) else (p.rateMin + (2 * n - k) * p.rateStep, Down)
  }

  lemma StepMultiples(step: int, a: int, b: int)
    requires step > 0
    ensures a < b <==> a * step < b * step
    ensures a == b <==> a * step == b * step
    ensures (a + 1) * step == a * step + step
    ensures (a - 1) * step == a * step - step
  {
    if a < b {
      assert (b - a) * step > 0;
    } else if b < a {
      assert (a - b) * step > 0;
    }
  }

  /** One advance is one phase. */
  lemma AdvanceIsNextPhase(p: Params, n: nat, k: nat)
    requires OnGrid(p, n) && k < 2 * n
    ensures var (rate, direction) := Phase(p, n, k);
            AdvanceRate(p, rate, direction) == Phase(p, n, if k + 1 == 2 * n then 0 else k + 1)
  {
    if k < n {
      StepMultiples(p.rateStep, k, n);
      StepMultiples(p.rateStep, k + 1, n);
    } else {
      StepMultiples(p.rateStep, 2 * n - k, 1);
      StepMultiples(p.rateStep, 2 * n - k, 0);
    }
  }

  function Iterate(p: Params, days: nat): (int, Direction)
  {
    if days == 0 then (p.rateMin, Up)
    else
      var (rate, direction) := Iterate(p, days - 1);
      AdvanceRate(p, rate, direction)
  }

  /** Closed form of an order never turned: the k-th rate is the triangle wave. */
  lemma {:induction false} TriangleWave(p: Params, n: nat, days: nat)
    requires OnGrid(p, n)
    ensures Iterate(p, days) == Phase(p, n, days % (2 * n))
  {
    if days == 0 {
      assert 0 * p.rateStep == 0;
    } else {
      TriangleWave(p, n, days - 1);
      AdvanceIsNextPhase(p, n, (days - 1) % (2 * n));
      NextRemainder(days - 1, 2 * n);
    }
  }

  lemma NextRemainder(a: nat, m: nat)
    requires m > 0
    ensures (a + 1) % m == if a % m + 1 == m then 0 else a % m + 1
  {
    var q, r := a / m, a % m;
    assert a + 1 == q * m + (r + 1);
    if r + 1 == m {
      assert a + 1 == (q + 1) * m + 0;
      RemainderUnique(a + 1, m, q + 1, 0);
    } else {
      RemainderUnique(a + 1, m, q, r + 1);
    }
  }

  lemma RemainderUnique(a: nat, m: nat, q: int, r: int)
    requires m > 0 && a == q * m + r && 0 <= r < m
    ensures a % m == r
  {
    var q', r' := a / m, a % m;
    assert a == q' * m + r';
    assert (q - q') * m == r' - r;
    StepMultiples(m, q - q', 0);
    StepMultiples(m, q - q', 1);
    StepMultiples(m, q - q', -1);
  }

  /** All 2n phases differ, so 2n is the exact period; (max, up) and (min, down) are no phases. */
  lemma PhasesDiffer(p: Params, n: nat, j: nat, k: nat)
    requires OnGrid(p, n) && j < 2 * n && k < 2 * n
    ensures Phase(p, n, j) == Phase(p, n, k) <==> j == k
    ensures Phase(p, n, k) != (p.rateMax, Up) && Phase(p, n, k) != (p.rateMin, Down)
    ensures InRange(p, Phase(p, n, k).0)
  {
    var step := p.rateStep;
    StepMultiples(step, j, k);
    StepMultiples(step, 2 * n - j, 2 * n - k);
    StepMultiples(step, k, n);
    StepMultiples(step, k, 0);
    StepMultiples(step, 0, k);
    StepMultiples(step, 2 * n - k, 0);
    StepMultiples(step, 0, 2 * n - k);
    StepMultiples(step, n, 2 * n - k);
    StepMultiples(step, n, k);
  }

  /** Sum of the first k rates of the cycle. */
  function PhaseSum(p: Params, n: nat, k: nat): int
    requires k <= 2 * n
  {
    if k == 0 then 0 else PhaseSum(p, n, k - 1) + Phase(p, n, k - 1).0
  }

  lemma {:induction false} PhaseSumUp(p: Params, n: nat, k: nat)
    requires k <= n
    ensures 2 * PhaseSum(p, n, k) == 2 * (k * p.rateMin) + (k * (k - 1)) * p.rateStep
  {
    if k > 0 {
      PhaseSumUp(p, n, k - 1);
      UpArithmetic(k, p.rateMin, p.rateStep);
    }
  }

  lemma {:induction false} PhaseSumDown(p: Params, n: nat, j: nat)
    requires j <= n
    ensures 2 * PhaseSum(p, n, n + j)
         == 2 * PhaseSum(p, n, n) + 2 * (j * p.rateMin) + (j * (2 * n - j + 1)) * p.rateStep
  {
    if j > 0 {
      PhaseSumDown(p, n, j - 1);
      DownArithmetic(n, j, p.rateMin, p.rateStep);
    }
  }

  lemma UpArithmetic(k: int, a: int, s: int)
    ensures k * a == (k - 1) * a + a
    ensures (k * (k - 1)) * s == ((k - 1) * (k - 2)) * s + 2 * ((k - 1) * s)
  {
    assert k * (k - 1) == (k - 1) * (k - 2) + 2 * (k - 1);
  }

  lemma DownArithmetic(n: int, j: int, a: int, s: int)
    ensures j * a == (j - 1) * a + a
    ensures (j * (2 * n - j + 1)) * s == ((j - 1) * (2 * n - j + 2)) * s + 2 * ((n - j + 1) * s)
  {
    assert j * (2 * n - j + 1) == (j - 1) * (2 * n - j + 2) + 2 * (n - j + 1);
  }

  /** One period pays n times the two bounds. */
  lemma PeriodSum(p: Params, n: nat)
    requires OnGrid(p, n)
    ensures PhaseSum(p, n, 2 * n) == n * (p.rateMin + p.rateMax)
  {
    PhaseSumUp(p, n, n);
    PhaseSumDown(p, n, n);
    var a, s := p.rateMin, p.rateStep;
    assert n * (a + a + n * s) == 2 * (n * a) + (n * n) * s;
    assert (n * (n - 1)) * s + (n * (n + 1)) * s == 2 * ((n * n) * s) by {
      assert n * (n - 1) + n * (n + 1) == 2 * (n * n);
    }
    assert n * (2 * n - n + 1) == n * (n + 1);
  }

  // ---- turns ----

  ghost predicate OnCycle(p: Params, n: nat, rate: int, direction: Direction)
  {
    exists k: nat :: k < 2 * n && Phase(p, n, k) == (rate, direction)
  }

  ghost predicate OnRung(p: Params, n: nat, rate: int)
  {
    exists j: nat :: j <= n && rate == p.rateMin + j * p.rateStep
  }

  /** What every event keeps: the order is on the cycle, and its last settled rate is a grid
      rate at most one step above the current one. */
  ghost predicate CycleInv(p: Params, n: nat, c: Cycle)
  {
    && OnCycle(p, n, c.rate, c.direction)
    && (c.lastSettled.Some? ==> OnRung(p, n, c.lastSettled.value) && c.lastSettled.value <= c.rate + p.rateStep)
  }

  lemma CycleOnRung(p: Params, n: nat, rate: int, direction: Direction)
    requires OnGrid(p, n) && OnCycle(p, n, rate, direction)
    ensures OnRung(p, n, rate) && InRange(p, rate)
  {
    var k: nat :| k < 2 * n && Phase(p, n, k) == (rate, direction);
    var j := if k < n then k else 2 * n - k;
    assert rate == p.rateMin + j * p.rateStep;
    PhasesDiffer(p, n, k, k);
  }

  lemma InitialCycleInv(p: Params, n: nat)
    requires OnGrid(p, n)
    ensures CycleInv(p, n, InitialCycle(p))
  {
    assert 0 * p.rateStep == 0;
    assert Phase(p, n, 0) == (p.rateMin, Up);
  }

  lemma SettleKeepsCycle(p: Params, n: nat, c: Cycle)
    requires OnGrid(p, n) && CycleInv(p, n, c)
    ensures CycleInv(p, n, Settle(p, c)) && CycleInv(p, n, SettleNothing(c))
  {
    CycleOnRung(p, n, c.rate, c.direction);
    var k: nat :| k < 2 * n && Phase(p, n, k) == (c.rate, c.direction);
    AdvanceIsNextPhase(p, n, k);
    var next := if k + 1 == 2 * n then 0 else k + 1;
    assert OnCycle(p, n, Phase(p, n, next).0, Phase(p, n, next).1);
    PhasesDiffer(p, n, next, next);
  }

  /** On the grid a withdrawal keeps the order on the cycle and never settles above the last
      settled rate, nor above the rate the order would have had. */
  lemma TurnNeverRaises(p: Params, n: nat, c: Cycle)
    requires OnGrid(p, n) && CycleInv(p, n, c)
    ensures CycleInv(p, n, Turn(p, c))
    ensures Turn(p, c).rate <= c.rate
    ensures Turn(p, c) != c ==> c.lastSettled.Some? && Turn(p, c).rate <= c.lastSettled.value
  {
    CycleOnRung(p, n, c.rate, c.direction);
    if Turn(p, c) != c {
      var last := c.lastSettled.value;
      var j: nat :| j <= n && last == p.rateMin + j * p.rateStep;
      StepMultiples(p.rateStep, j, 1);
      StepMultiples(p.rateStep, j, 0);
      StepMultiples(p.rateStep, 0, j);
      assert 0 * p.rateStep == 0 && 1 * p.rateStep == p.rateStep;
      if j <= 1 {
        assert Phase(p, n, 0) == (p.rateMin, Up);
      } else {
        assert Phase(p, n, 2 * n - (j - 1)) == (last - p.rateStep, Down);
      }
    }
  }

  /** Between two settlements further withdrawals change nothing. */
  lemma TurnOnce(p: Params, c: Cycle)
    ensures Turn(p, Turn(p, c)) == Turn(p, c)
  {
  }

  /** A turn settles above the last settled rate exactly when that rate lies strictly between the
      minimum and one step above it (the bounce at the minimum, capped by the maximum). */
  lemma TurnRaisesExactlyOnBounce(p: Params, last: int)
    requires p.RateRange() && InRange(p, last)
    ensures ApplyExtractRateTurn(p, Up, Some(last)).value.0 > last
       <==> p.rateMin < last < Min(p.rateMin + p.rateStep, p.rateMax)
  {
  }

  /** What every event keeps for any positive step: a rising order stands at a bound or at least one
      step above the minimum, and turning it would not raise its rate. */
  ghost predicate Tame(p: Params, c: Cycle)
  {
    && CycleInRange(p, c)
    && (c.direction.Up? ==>
          && (c.rate == p.rateMin || c.rate == p.rateMax || c.rate >= p.rateMin + p.rateStep)
          && (c.lastSettled.Some? ==> ApplyExtractRateTurn(p, Up, c.lastSettled).value.0 <= c.rate))
  }

  /** Opening, settling, lifting the turn and turning keep an order tame. */
  lemma StaysTame(p: Params, c: Cycle)
    requires p.RateRange()
    ensures Tame(p, InitialCycle(p))
    ensures Tame(p, c) ==> Tame(p, Settle(p, c)) && Tame(p, SettleNothing(c)) && Tame(p, c.(turnPending := false))
    ensures Tame(p, c) ==> Tame(p, Turn(p, c))
  {
  }

  /** On the grid or not, a withdrawal never raises the rate an order would have settled at.  It
      settles above the last settled rate exactly on the bounce. */
  lemma TurnBound(p: Params, c: Cycle)
    requires p.RateRange() && Tame(p, c)
    ensures Turn(p, c).rate <= c.rate
    ensures Turn(p, c) != c ==>
              && c.lastSettled.Some?
              && var last := c.lastSettled.value;
              (Turn(p, c).rate > last <==> p.rateMin < last < Min(p.rateMin + p.rateStep, p.rateMax))
  {
    if Turn(p, c) != c {
      TurnRaisesExactlyOnBounce(p, c.lastSettled.value);
    }
  }

  // ---- loop of the source ----

  /** Exit multiplier in tenths for a subscription amount. */
  function MultiplierFor(p: Params, amount: int): Option<int>
  {
    if amount < p.minSubscribe then None else BandMultiplier(p.multipliers, amount)
  }

  function BandMultiplier(bands: seq<MultiplierTier>, amount: int): Option<int>
  {
    if bands == [] then None
    else if bands[0].lt.None? || amount < bands[0].lt.value then Some(bands[0].multiplier)
    else BandMultiplier(bands[1..], amount)
  }

  /** The band that prices an amount is the first open or larger one. */
  lemma {:induction false} BandMultiplierIsFirst(bands: seq<MultiplierTier>, amount: int, k: nat)
    requires k < |bands|
    requires bands[k].lt.None? || amount < bands[k].lt.value
    requires forall j :: 0 <= j < k ==> bands[j].lt.Some? && bands[j].lt.value <= amount
    ensures BandMultiplier(bands, amount) == Some(bands[k].multiplier)
  {
    if k > 0 {
      BandMultiplierIsFirst(bands[1..], amount, k - 1);
    }
  }

  method MultiplierForAmount(p: Params, amount: int) returns (multiplier: int, ok: bool)
    ensures ok <==> MultiplierFor(p, amount).Some?
    ensures ok ==> MultiplierFor(p, amount) == Some(multiplier)
  {
    if amount < p.minSubscribe {
      return 0, false;
    }
    for i := 0 to |p.multipliers|
      invariant BandMultiplier(p.multipliers, amount) == BandMultiplier(p.multipliers[i..], amount)
    {
      var band := p.multipliers[i];
      if band.lt.None? {
        return band.multiplier, true;
      }
      if amount < band.lt.value {
        return band.multiplier, true;
      }
    }
    return 0, false;
  }
}
