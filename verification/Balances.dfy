/** Trade sizing and the tracked balances (`BalanceTracker` in `src/picker.rs`). */
module Balances {
  import opened Wrappers
  import opened Models
  import opened Money

  const DEFAULT_TRADE_FRACTION := 0.20
  const DEFAULT_MIN_TRADE_SIZE := 2.0

  /** An environment variable: absent or blank, unreadable, or a number. */
  datatype EnvValue = Unset | Unreadable | Number(value: real)

  /** Positive, and for a fraction below one. */
  predicate InRange(value: real, isFraction: bool) {
    0.0 < value && (isFraction ==> value < 1.0)
  }

  /** A configured decimal, replaced by the default unless it is in range. */
  function ConfiguredDecimal(raw: EnvValue, isFraction: bool, default: real): (v: real)
    requires InRange(default, isFraction)
    ensures 0.0 < v && (isFraction ==> v < 1.0)
    ensures v != default ==> raw == Number(v)
    ensures raw.Number? && 0.0 < raw.value && (isFraction ==> raw.value < 1.0) ==> v == raw.value
  {
    match raw
    case Number(v) => if v > 0.0 && (!isFraction || v < 1.0) then v else default
    case _ => default
  }

  /** The tracked capital per venue, in dollars. */
  datatype Purse = Purse(kalshi: real, poly: real) {
    function Smaller(): (low: real)
      ensures low <= kalshi && low <= poly && (low == kalshi || low == poly)
    {
      Min(kalshi, poly)
    }
  }

  function Budget(purse: Purse, fraction: real): int {
    (purse.Smaller() * fraction).Floor
  }

  /** The greatest whole number of dollars within the fraction of either balance. */
  lemma BudgetIsGreatest(purse: Purse, fraction: real)
    requires 0.0 <= fraction
    ensures var b := Budget(purse, fraction) as real;
            && b <= purse.kalshi * fraction && b <= purse.poly * fraction
            && (purse.kalshi * fraction < b + 1.0 || purse.poly * fraction < b + 1.0)
  {
    MulMonotone(purse.Smaller(), purse.kalshi, fraction);
    MulMonotone(purse.Smaller(), purse.poly, fraction);
  }

  /** `n` contracts are affordable and available. */
  predicate Fits(n: int, budget: int, unitCost: real, liquidity: real) {
    n as real * unitCost <= budget as real && n as real <= liquidity
  }

  function SizeFor(budget: int, unitCost: real, liquidity: real): int
    requires unitCost != 0.0
  {
    var byBudget := (budget as real / unitCost).Floor;
    if byBudget <= liquidity.Floor then byBudget else liquidity.Floor
  }

  /** The size is the greatest whole number of contracts that fits. */
  lemma SizeForIsGreatest(budget: int, unitCost: real, liquidity: real)
    requires 0.0 < unitCost
    ensures Fits(SizeFor(budget, unitCost, liquidity), budget, unitCost, liquidity)
    ensures forall k: int :: Fits(k, budget, unitCost, liquidity) ==> k <= SizeFor(budget, unitCost, liquidity)
  {
    var n := SizeFor(budget, unitCost, liquidity);
    AffordableIff(n, budget as real, unitCost);
    forall k: int | Fits(k, budget, unitCost, liquidity) ensures k <= n {
      AffordableIff(k, budget as real, unitCost);
    }
  }

  lemma AffordableIff(k: int, budget: real, unitCost: real)
    requires 0.0 < unitCost
    ensures k as real * unitCost <= budget <==> k <= (budget / unitCost).Floor
  {
    var q := budget / unitCost;
    assert q * unitCost == budget;
    if k <= q.Floor {
      assert k as real <= q;
      MulMonotone(k as real, q, unitCost);
    } else {
      assert q < k as real;
      MulStrict(q, k as real, unitCost);
    }
  }

  lemma MulStrict(a: real, b: real, c: real)
    requires a < b && 0.0 < c
    ensures a * c < b * c
  {
    assert 0.0 < (b - a) * c;
  }

  /** The contracts to trade, or none when they would be worth less than the minimum. */
  function ComputeSize(purse: Purse, fraction: real, minTradeSize: real,
                       anchorPrice: real, matchPrice: real, liquidity: real): Option<int> {
    var budget := Budget(purse, fraction);
    var unitCost := anchorPrice + matchPrice;
    if unitCost == 0.0 then None
    else
      var size := SizeFor(budget, unitCost, liquidity);
      if size as real * unitCost < minTradeSize then None else Some(size)
  }

  /**
   For a positive unit cost: the greatest fitting count is returned, exactly when it is worth the minimum.
   */
  lemma ComputeSizeIsGreatest(purse: Purse, fraction: real, minTradeSize: real,
                              anchorPrice: real, matchPrice: real, liquidity: real, n: int)
    requires 0.0 < anchorPrice + matchPrice && 0.0 < minTradeSize
    ensures var cost := anchorPrice + matchPrice;
            var budget := Budget(purse, fraction);
            ComputeSize(purse, fraction, minTradeSize, anchorPrice, matchPrice, liquidity) == Some(n)
            <==> && Fits(n, budget, cost, liquidity)
                 && (forall k: int :: Fits(k, budget, cost, liquidity) ==> k <= n)
                 && n as real * cost >= minTradeSize
  {
    var cost := anchorPrice + matchPrice;
    var budget := Budget(purse, fraction);
    SizeForIsGreatest(budget, cost, liquidity);
    if Fits(n, budget, cost, liquidity) && (forall k: int :: Fits(k, budget, cost, liquidity) ==> k <= n) {
      assert SizeFor(budget, cost, liquidity) == n;
    }
  }

  /** A returned count is positive, so the zero-size refusal of the order code is never reached. */
  lemma ComputeSizePositive(purse: Purse, fraction: real, minTradeSize: real,
                            anchorPrice: real, matchPrice: real, liquidity: real)
    requires 0.0 < anchorPrice + matchPrice && 0.0 < minTradeSize
    ensures var size := ComputeSize(purse, fraction, minTradeSize, anchorPrice, matchPrice, liquidity);
            size.Some? ==> 0 < size.value
  {
    var size := ComputeSize(purse, fraction, minTradeSize, anchorPrice, matchPrice, liquidity);
    if size.Some? && size.value <= 0 {
      MulMonotone(size.value as real, 0.0, anchorPrice + matchPrice);
    }
  }

  // ---- charging fills ----

  function Charge(purse: Purse, platform: Platform, amount: real): Purse {
    match platform
    case Kalshi => purse.(kalshi := purse.kalshi - amount)
    case Polymarket => purse.(poly := purse.poly - amount)
  }

  function Cost(price: real, size: real): real {
    price * size
  }

  /** Both legs charged, each to its own venue, for the matched count only. */
  function Deduct(purse: Purse, p: Platform, anchorPrice: real, q: Platform, matchPrice: real, size: real): Purse {
    Charge(Charge(purse, p, Cost(anchorPrice, size)), q, Cost(matchPrice, size))
  }

  /** One handled request: the prices and liquidity it saw and what each venue filled. */
  datatype Trade = Trade(
    anchorPlatform: Platform, anchorPrice: real, matchPlatform: Platform, matchPrice: real, liquidity: real,
    anchorFill: real, matchFill: real)

  function AfterTrade(purse: Purse, fraction: real, minTradeSize: real, t: Trade): Purse {
    match ComputeSize(purse, fraction, minTradeSize, t.anchorPrice, t.matchPrice, t.liquidity)
    case None => purse
    case Some(_) =>
      Deduct(purse, t.anchorPlatform, t.anchorPrice, t.matchPlatform, t.matchPrice, Min(t.anchorFill, t.matchFill))
  }

  /** Prices are not negative, their sum is positive, and no venue fills more than was asked. */
  predicate Plausible(purse: Purse, fraction: real, minTradeSize: real, t: Trade) {
    && 0.0 <= t.anchorPrice && 0.0 <= t.matchPrice && 0.0 < t.anchorPrice + t.matchPrice
    && 0.0 <= t.anchorFill && 0.0 <= t.matchFill
    && var size := ComputeSize(purse, fraction, minTradeSize, t.anchorPrice, t.matchPrice, t.liquidity);
       size.Some? ==> t.anchorFill <= size.value as real && t.matchFill <= size.value as real
  }

  /** The balances before, between and after a number of trades with no refresh. */
  ghost predicate TradeRun(purses: seq<Purse>, fraction: real, minTradeSize: real, trades: seq<Trade>) {
    && |purses| == |trades| + 1
    && forall i {:trigger trades[i]} :: 0 <= i < |trades| ==>
         && Plausible(purses[i], fraction, minTradeSize, trades[i])
         && purses[i + 1] == AfterTrade(purses[i], fraction, minTradeSize, trades[i])
  }

  function Power(base: real, n: nat): real {
    if n == 0 then 1.0 else base * Power(base, n - 1)
  }

  predicate StillThere(keep: real, low: real, balance: real) {
    keep * low <= balance
  }

  /** At least the untouched fraction of the smaller balance is still there, on both venues. */
  predicate Keeps(before: Purse, after: Purse, fraction: real) {
    && StillThere(1.0 - fraction, before.Smaller(), after.kalshi)
    && StillThere(1.0 - fraction, before.Smaller(), after.poly)
  }

  /** At most `limit` is gone from the smaller balance. */
  predicate SpendsAtMost(before: Purse, after: Purse, limit: real) {
    before.Smaller() - limit <= after.Smaller()
  }

  /** One trade keeps at least the untouched fraction of the smaller balance, one venue or two. */
  lemma TradeKeepsFraction(purse: Purse, fraction: real, minTradeSize: real, t: Trade)
    requires 0.0 < fraction < 1.0 && 0.0 < minTradeSize && 0.0 <= purse.Smaller()
    requires Plausible(purse, fraction, minTradeSize, t)
    ensures Keeps(purse, AfterTrade(purse, fraction, minTradeSize, t), fraction)
  {
    BudgetNotNegative(purse, fraction);
    TradeSpendsWithin(purse, fraction, minTradeSize, t, Budget(purse, fraction) as real);
    BudgetKeeps(purse, AfterTrade(purse, fraction, minTradeSize, t), fraction);
  }

  lemma BudgetNotNegative(purse: Purse, fraction: real)
    requires 0.0 < fraction && 0.0 <= purse.Smaller()
    ensures 0 <= Budget(purse, fraction)
  {
    MulMonotone(0.0, purse.Smaller(), fraction);
  }

  lemma BudgetKeeps(before: Purse, after: Purse, fraction: real)
    requires SpendsAtMost(before, after, Budget(before, fraction) as real)
    ensures Keeps(before, after, fraction)
  {
    assert (1.0 - fraction) * before.Smaller() == before.Smaller() - before.Smaller() * fraction;
  }

  /** A trade is paid for within its budget. */
  lemma TradeSpendsWithin(purse: Purse, fraction: real, minTradeSize: real, t: Trade, limit: real)
    requires 0.0 < minTradeSize && 0.0 <= limit && Budget(purse, fraction) as real == limit
    requires Plausible(purse, fraction, minTradeSize, t)
    ensures SpendsAtMost(purse, AfterTrade(purse, fraction, minTradeSize, t), limit)
  {
    var size := ComputeSize(purse, fraction, minTradeSize, t.anchorPrice, t.matchPrice, t.liquidity);
    if size.Some? {
      ComputeSizeIsGreatest(purse, fraction, minTradeSize, t.anchorPrice, t.matchPrice, t.liquidity, size.value);
      DeductWithin(purse, t, Min(t.anchorFill, t.matchFill), size.value as real, limit);
    }
  }

  lemma Fraction(fraction: real, low: real)
    requires 0.0 <= fraction <= 1.0 && 0.0 <= low
    ensures 0.0 <= low * fraction && low - low * fraction == (1.0 - fraction) * low >= 0.0
  {
    MulMonotone(0.0, fraction, low);
    MulMonotone(fraction, 1.0, low);
  }

  predicate Covers(limit: real, size: real, unitCost: real) {
    Cost(unitCost, size) <= limit
  }

  predicate TwoWithin(x: real, y: real, limit: real) {
    0.0 <= x && 0.0 <= y && x + y <= limit
  }

  lemma DeductWithin(purse: Purse, t: Trade, fill: real, size: real, limit: real)
    requires 0.0 <= t.anchorPrice && 0.0 <= t.matchPrice && 0.0 <= fill <= size
    requires Covers(limit, size, t.anchorPrice + t.matchPrice)
    ensures var after := Deduct(purse, t.anchorPlatform, t.anchorPrice, t.matchPlatform, t.matchPrice, fill);
            SpendsAtMost(purse, after, limit)
  {
    ChargesWithin(t.anchorPrice, t.matchPrice, fill, size, limit);
    ChargedWithin(purse, t.anchorPlatform, Cost(t.anchorPrice, fill), t.matchPlatform, Cost(t.matchPrice, fill), limit);
  }

  lemma ChargedWithin(purse: Purse, p: Platform, x: real, q: Platform, y: real, limit: real)
    requires TwoWithin(x, y, limit)
    ensures SpendsAtMost(purse, Charge(Charge(purse, p, x), q, y), limit)
  {
  }

  lemma ChargesWithin(anchorPrice: real, matchPrice: real, fill: real, size: real, limit: real)
    requires 0.0 <= anchorPrice && 0.0 <= matchPrice && 0.0 <= fill <= size
    requires Covers(limit, size, anchorPrice + matchPrice)
    ensures TwoWithin(Cost(anchorPrice, fill), Cost(matchPrice, fill), limit)
  {
    MulMonotone(0.0, anchorPrice, fill);
    MulMonotone(0.0, matchPrice, fill);
    MulMonotone(fill, size, anchorPrice + matchPrice);
    assert anchorPrice * fill + matchPrice * fill == fill * (anchorPrice + matchPrice);
  }

  lemma OneKeeps(purses: seq<Purse>, fraction: real, minTradeSize: real, trades: seq<Trade>, k: nat)
    requires 0.0 < fraction < 1.0 && 0.0 < minTradeSize
    requires TradeRun(purses, fraction, minTradeSize, trades) && k < |trades| && 0.0 <= purses[k].Smaller()
    ensures Keeps(purses[k], purses[k + 1], fraction)
  {
    TradeKeepsFraction(purses[k], fraction, minTradeSize, trades[k]);
  }

  predicate PowerThere(keep: real, k: nat, start: real, balance: real) {
    0.0 <= Power(keep, k) * start <= balance
  }

  /** The `k`-th power of the untouched fraction of `start` is still there, on both venues. */
  predicate Floored(fraction: real, k: nat, start: real, purse: Purse) {
    PowerThere(1.0 - fraction, k, start, purse.kalshi) && PowerThere(1.0 - fraction, k, start, purse.poly)
  }

  lemma FlooredStep(fraction: real, k: nat, start: real, before: Purse, after: Purse)
    requires 0.0 < fraction < 1.0 && Floored(fraction, k, start, before) && Keeps(before, after, fraction)
    ensures Floored(fraction, k + 1, start, after)
  {
    var low := before.Smaller();
    assert PowerThere(1.0 - fraction, k, start, low) by {
      assert low == before.kalshi || low == before.poly;
    }
    PowerStep(1.0 - fraction, k, start, low, after.kalshi);
    PowerStep(1.0 - fraction, k, start, low, after.poly);
  }

  lemma PowerStep(keep: real, k: nat, start: real, low: real, next: real)
    requires 0.0 <= keep && PowerThere(keep, k, start, low) && StillThere(keep, low, next)
    ensures PowerThere(keep, k + 1, start, next)
  {
    var floor := Power(keep, k) * start;
    MulMonotone(0.0, floor, keep);
    MulMonotone(floor, low, keep);
    assert Power(keep, k + 1) * start == keep * floor;
  }

  lemma {:induction false} TradesKeep(
      purses: seq<Purse>, start: real, fraction: real, minTradeSize: real, trades: seq<Trade>, k: nat)
    requires 0.0 < fraction < 1.0 && 0.0 < minTradeSize && k <= |trades|
    requires TradeRun(purses, fraction, minTradeSize, trades) && Floored(fraction, 0, start, purses[0])
    ensures Floored(fraction, k, start, purses[k])
  {
    if k > 0 {
      TradesKeep(purses, start, fraction, minTradeSize, trades, k - 1);
      OneKeeps(purses, fraction, minTradeSize, trades, k - 1);
      FlooredStep(fraction, k - 1, start, purses[k - 1], purses[k]);
    }
  }

  /**
   Over any number of trades with no refresh: balances that both start at `start` or more both keep at least
   (1 - fraction)^n of it, so neither goes negative, whatever venues the legs are on.
   */
  lemma TradesKeepFraction(purses: seq<Purse>, start: real, fraction: real, minTradeSize: real, trades: seq<Trade>)
    requires 0.0 < fraction < 1.0 && 0.0 < minTradeSize
    requires TradeRun(purses, fraction, minTradeSize, trades)
    requires 0.0 <= start <= purses[0].kalshi && start <= purses[0].poly
    ensures 0.0 <= Power(1.0 - fraction, |trades|) * start <= purses[|trades|].kalshi
    ensures Power(1.0 - fraction, |trades|) * start <= purses[|trades|].poly
  {
    TradesKeep(purses, start, fraction, minTradeSize, trades, |trades|);
  }

  /** The two balances behind their locks, with the configuration read at construction. */
  class BalanceTracker {
    var kalshi: real
    var poly: real
    const tradeFraction: real
    const minTradeSize: real

    predicate Valid() {
      0.0 < tradeFraction < 1.0 && 0.0 < minTradeSize
    }

    function Held(): Purse
      reads this
    {
      Purse(kalshi, poly)
    }

    constructor (fraction: EnvValue, minSize: EnvValue)
      ensures Valid() && Held() == Purse(0.0, 0.0)
      ensures tradeFraction == ConfiguredDecimal(fraction, true, DEFAULT_TRADE_FRACTION)
      ensures minTradeSize == ConfiguredDecimal(minSize, false, DEFAULT_MIN_TRADE_SIZE)
      ensures 0.0 < tradeFraction < 1.0 && 0.0 < minTradeSize
      ensures (fraction.Unset? ==> tradeFraction == 0.2) && (minSize.Unset? ==> minTradeSize == 2.0)
    {
      kalshi, poly := 0.0, 0.0;
      tradeFraction := ConfiguredDecimal(fraction, true, DEFAULT_TRADE_FRACTION);
      minTradeSize := ConfiguredDecimal(minSize, false, DEFAULT_MIN_TRADE_SIZE);
    }

    /** Post-trade refresh: Kalshi answers in cents; a failed Polymarket call keeps the last value. */
    method Refresh(kalshiCents: Option<int>, polyUsdc: Option<real>)
      modifies this
      ensures kalshiCents.None? ==> Held() == old(Held())
      ensures kalshiCents.Some? ==> kalshi == kalshiCents.value as real / 100.0 && poly == polyUsdc.GetOr(old(poly))
    {
      if kalshiCents.None? {
        return;
      }
      kalshi := kalshiCents.value as real / 100.0;
      if polyUsdc.Some? {
        poly := polyUsdc.value;
      }
    }

    method DeductFill(p: Platform, anchorPrice: real, q: Platform, matchPrice: real, size: real)
      modifies this
      ensures Held() == Deduct(old(Held()), p, anchorPrice, q, matchPrice, size)
      ensures kalshi == old(kalshi) - (if p.Kalshi? then anchorPrice * size else 0.0)
                        - if q.Kalshi? then matchPrice * size else 0.0
      ensures poly == old(poly) - (if p.Polymarket? then anchorPrice * size else 0.0)
                      - if q.Polymarket? then matchPrice * size else 0.0
    {
      Debit(p, anchorPrice * size);
      Debit(q, matchPrice * size);
    }

    method Debit(platform: Platform, cost: real)
      modifies this
      ensures Held() == Charge(old(Held()), platform, cost)
    {
      match platform
      case Kalshi => kalshi := kalshi - cost;
      case Polymarket => poly := poly - cost;
    }
  }
}
