/** What trades really cost against what they are budgeted and charged, one trade and many (`src/picker.rs`). */
module Outlays {
  import opened Wrappers
  import opened Models
  import opened Money
  import opened Balances
  import opened OrderBooks
  import opened Quotes
  import opened Evaluation
  import opened PickerComms
  import opened PickerExec

  // ---- one trade against its budget ----

  /** A leg filled in full at its limit. */
  function LegAtLimit(p: Platform, price: real, size: int): real {
    LimitDollars(p, price) * size as real
  }

  /** Both legs filled in full, each at its limit. */
  function LimitOutlay(p: Platform, anchorPrice: real, q: Platform, matchPrice: real, size: int): real {
    LegAtLimit(p, anchorPrice, size) + LegAtLimit(q, matchPrice, size)
  }

  /** The dollars that both venues took. */
  function Outlay(o: Outcome): real
    requires o.Traded?
  {
    o.anchor.paid + o.matched.paid
  }

  /** A limit is at most half a cent above its price, and not above it at all on Kalshi. */
  lemma LimitNearPrice(p: Platform, price: real)
    ensures LimitDollars(p, price) <= price + 0.005
    ensures p.Kalshi? ==> LimitDollars(p, price) <= price
  {
  }

  lemma LimitNotNegative(p: Platform, price: real)
    requires 0.0 <= price
    ensures 0.0 <= LimitDollars(p, price)
  {
  }

  /** Sizing is at quoted prices; at the limits a fitting count costs at most a cent a contract over its budget. */
  lemma LimitOutlayWithin(p: Platform, anchorPrice: real, q: Platform, matchPrice: real, size: int, budget: int,
                          liquidity: real)
    requires Fits(size, budget, anchorPrice + matchPrice, liquidity) && 0 <= size
    ensures LimitOutlay(p, anchorPrice, q, matchPrice, size) <= budget as real + 0.01 * size as real
    ensures p.Kalshi? && q.Kalshi? ==> LimitOutlay(p, anchorPrice, q, matchPrice, size) <= budget as real
  {
    var a, m := LimitDollars(p, anchorPrice), LimitDollars(q, matchPrice);
    LimitNearPrice(p, anchorPrice);
    LimitNearPrice(q, matchPrice);
    LinearOutlay(a, m, anchorPrice, matchPrice, size as real, if p.Kalshi? && q.Kalshi? then 0.0 else 0.01);
    LinearOutlay(a, m, anchorPrice, matchPrice, size as real, 0.01);
  }

  lemma LinearOutlay(a: real, m: real, anchorPrice: real, matchPrice: real, size: real, slack: real)
    requires 0.0 <= size && a + m <= anchorPrice + matchPrice + slack
    ensures a * size + m * size <= size * (anchorPrice + matchPrice) + slack * size
  {
    MulMonotone(a + m, anchorPrice + matchPrice + slack, size);
  }

  /** Whatever the venues do, a trade costs at most its fills at the limits, and so at most the whole count at them. */
  lemma OutlayWithinLimits(req: ExecutionRequest, anchorPrice: real, matchPrice: real, size: int,
                           venue: Order -> Option<Fill>)
    requires 0.0 <= anchorPrice && 0.0 <= matchPrice && 0 < size && HonoursLimits(venue)
    ensures Outlay(Settle(req, anchorPrice, matchPrice, size, venue))
            <= LimitOutlay(req.anchor.platform, anchorPrice, req.matched.platform, matchPrice, size)
  {
    LegOutlay(req.anchor, anchorPrice, size, venue);
    LegOutlay(req.matched, matchPrice, size, venue);
  }

  lemma LegOutlay(leg: ArbMinifiedInfo, price: real, size: int, venue: Order -> Option<Fill>)
    requires 0.0 <= price && 0 < size && HonoursLimits(venue)
    ensures Ask(BuyOrder(leg, size, price), venue).paid <= LegAtLimit(leg.platform, price, size)
  {
    PaidWithinLimit(leg, size, price, venue);
    FilledWithinSize(leg, price, size, venue);
    LimitNotNegative(leg.platform, price);
    PaidInFull(LimitDollars(leg.platform, price), Ask(BuyOrder(leg, size, price), venue), size as real);
  }

  lemma FilledWithinSize(leg: ArbMinifiedInfo, price: real, size: int, venue: Order -> Option<Fill>)
    requires 0 < size && HonoursLimits(venue)
    ensures Ask(BuyOrder(leg, size, price), venue).filled <= size as real
  {
  }

  lemma PaidInFull(limit: real, fill: Fill, size: real)
    requires 0.0 <= limit && PaidAt(limit, fill) && fill.filled <= size
    ensures fill.paid <= limit * size
  {
    MulMonotone(fill.filled, size, limit);
  }

  /** A venue that fills every order in full at its limit. */
  function FillsAll(o: Order): Option<Fill> {
    if o.size < 0.0 then None else Some(Fill(o.size, o.limitCents as real / 100.0 * o.size))
  }

  lemma FillsAllCosts(req: ExecutionRequest, anchorPrice: real, matchPrice: real, size: int)
    requires 0.0 <= anchorPrice <= 0.985 && 0.0 <= matchPrice <= 0.985 && 0 < size < U64_LIMIT
    ensures HonoursLimits(FillsAll)
    ensures Outlay(Settle(req, anchorPrice, matchPrice, size, FillsAll))
            == LimitOutlay(req.anchor.platform, anchorPrice, req.matched.platform, matchPrice, size)
  {
    FillsAllOne(req.anchor, anchorPrice, size);
    FillsAllOne(req.matched, matchPrice, size);
  }

  lemma FillsAllOne(leg: ArbMinifiedInfo, price: real, size: int)
    requires 0.0 <= price <= 0.985 && 0 < size < U64_LIMIT
    ensures Ask(BuyOrder(leg, size, price), FillsAll).paid == LegAtLimit(leg.platform, price, size)
  {
    SizedBuysAreSubmitted(leg, size, price);
  }

  /** Some venues that honour the limits take more than the budget. */
  ghost predicate CanOverspend(req: ExecutionRequest, anchorPrice: real, matchPrice: real, size: int, budget: int) {
    exists venue :: HonoursLimits(venue) && budget as real < Outlay(Settle(req, anchorPrice, matchPrice, size, venue))
  }

  /** A trade can cost more than its budget if and only if its whole count at the submitted limits does. */
  lemma CanOverspendIff(req: ExecutionRequest, anchorPrice: real, matchPrice: real, size: int, budget: int)
    requires 0.0 <= anchorPrice && 0.0 <= matchPrice && Accepted(anchorPrice, matchPrice) && 0 < size < U64_LIMIT
    ensures CanOverspend(req, anchorPrice, matchPrice, size, budget) <==>
            budget as real < LimitOutlay(req.anchor.platform, anchorPrice, req.matched.platform, matchPrice, size)
  {
    forall venue | HonoursLimits(venue)
      ensures Outlay(Settle(req, anchorPrice, matchPrice, size, venue))
              <= LimitOutlay(req.anchor.platform, anchorPrice, req.matched.platform, matchPrice, size)
    {
      OutlayWithinLimits(req, anchorPrice, matchPrice, size, venue);
    }
    FillsAllCosts(req, anchorPrice, matchPrice, size);
  }

  /** It happens: with 4925 dollars on each venue, 1000 contracts are sized for 985 dollars and bought for up to 990. */
  lemma OverspendHappens(req: ExecutionRequest)
    requires req.anchor.platform.Polymarket? && req.matched.platform.Polymarket?
    ensures var purse := Purse(4925.0, 4925.0);
            && Accepted(0.496, 0.489) && Budget(purse, 0.2) == 985
            && ComputeSize(purse, 0.2, 2.0, 0.496, 0.489, 1000.0) == Some(1000)
            && CanOverspend(req, 0.496, 0.489, 1000, 985)
  {
    assert RoundHalfEven(49.6) == 50 && RoundHalfEven(48.9) == 49;
    CanOverspendIff(req, 0.496, 0.489, 1000, 985);
  }

  // ---- optimistic mode ----

  /**
   Prices taken from the stream are never sized when a leg is on Polymarket: every request that an evaluation makes of
   such a pair is rejected for its prices or ends unsized.
   */
  lemma OptimisticPolyIsNotSized(quotes: Quotes, c: Cid, w: ArbWatch, fetch: ArbMinifiedInfo -> Option<VenueBook>,
                                 purse: Purse, fraction: real, minTradeSize: real, venue: Order -> Option<Fill>)
    requires PolyUnsized(quotes) && Quoted(quotes, w) && w.Keyed() && 0.0 < minTradeSize
    requires w.anchor.platform.Polymarket? || w.matched.platform.Polymarket?
    ensures var req := RequestFor(quotes, c, w);
            var o := Decide(Prices(true, req, fetch), purse, fraction, minTradeSize, req, venue);
            if Accepted(req.anchorWsPrice, req.matchWsPrice) then o.NotSized? else o.Rejected?
  {
    var req := RequestFor(quotes, c, w);
    PolyRequestsAreUnsized(quotes, c, w);
    if Accepted(req.anchorWsPrice, req.matchWsPrice) {
      UnsizedIsNone(purse, fraction, minTradeSize, req.anchorWsPrice, req.matchWsPrice,
                    Min(req.anchorWsSize, req.matchWsSize));
    }
  }

  lemma UnsizedIsNone(purse: Purse, fraction: real, minTradeSize: real, anchorPrice: real, matchPrice: real,
                      liquidity: real)
    requires 0.0 < anchorPrice + matchPrice && 0.0 < minTradeSize && liquidity <= 0.0
    ensures ComputeSize(purse, fraction, minTradeSize, anchorPrice, matchPrice, liquidity).None?
  {
    var size := ComputeSize(purse, fraction, minTradeSize, anchorPrice, matchPrice, liquidity);
    if size.Some? {
      ComputeSizePositive(purse, fraction, minTradeSize, anchorPrice, matchPrice, liquidity);
      ComputeSizeIsGreatest(purse, fraction, minTradeSize, anchorPrice, matchPrice, liquidity, size.value);
    }
  }

  // ---- many requests ----

  /** One handled request: the prices it saw, and the venues. */
  datatype Handled = Handled(prices: Option<(Metrics, Metrics)>, req: ExecutionRequest, venue: Order -> Option<Fill>)
  {
    ghost predicate Sound() {
      && HonoursLimits(venue)
      && (prices.Some? ==> 0.0 <= prices.value.0.price && 0.0 <= prices.value.1.price)
    }
  }

  /** The tracked balances after a request. */
  function After(purse: Purse, fraction: real, minTradeSize: real, h: Handled): Purse {
    ChargedPurse(purse, h.req, Decide(h.prices, purse, fraction, minTradeSize, h.req, h.venue))
  }

  /** The tracked balances around any number of requests handled one after the other, with no refresh. */
  ghost predicate HandledRun(purses: seq<Purse>, fraction: real, minTradeSize: real, handled: seq<Handled>) {
    && |purses| == |handled| + 1
    && forall i {:trigger handled[i]} :: 0 <= i < |handled| ==>
         handled[i].Sound() && purses[i + 1] == After(purses[i], fraction, minTradeSize, handled[i])
  }

  /** Whether a request trades or not, it keeps the untouched fraction of the smaller balance. */
  lemma RequestKeepsFraction(purse: Purse, fraction: real, minTradeSize: real, h: Handled)
    requires 0.0 < fraction < 1.0 && 0.0 < minTradeSize && 0.0 <= purse.Smaller() && h.Sound()
    ensures Keeps(purse, After(purse, fraction, minTradeSize, h), fraction)
  {
    if h.prices.Some? && Accepted(h.prices.value.0.price, h.prices.value.1.price) {
      var a, m := h.prices.value.0, h.prices.value.1;
      HandlingIsATrade(a, m, purse, fraction, minTradeSize, h.req, h.venue);
      TradeKeepsFraction(purse, fraction, minTradeSize, TradeOf(a, m, purse, fraction, minTradeSize, h.req, h.venue));
    } else {
      Fraction(fraction, purse.Smaller());
      MulMonotone(0.0, fraction, purse.Smaller());
    }
  }

  lemma OneKeepsFraction(
      purses: seq<Purse>, fraction: real, minTradeSize: real, handled: seq<Handled>, k: nat)
    requires 0.0 < fraction < 1.0 && 0.0 < minTradeSize
    requires HandledRun(purses, fraction, minTradeSize, handled) && k < |handled| && 0.0 <= purses[k].Smaller()
    ensures Keeps(purses[k], purses[k + 1], fraction)
  {
    RequestKeepsFraction(purses[k], fraction, minTradeSize, handled[k]);
  }

  lemma {:induction false} RequestsKeep(
      purses: seq<Purse>, start: real, fraction: real, minTradeSize: real, handled: seq<Handled>, k: nat)
    requires 0.0 < fraction < 1.0 && 0.0 < minTradeSize && k <= |handled|
    requires HandledRun(purses, fraction, minTradeSize, handled) && Floored(fraction, 0, start, purses[0])
    ensures Floored(fraction, k, start, purses[k])
  {
    if k > 0 {
      RequestsKeep(purses, start, fraction, minTradeSize, handled, k - 1);
      OneKeepsFraction(purses, fraction, minTradeSize, handled, k - 1);
      FlooredStep(fraction, k - 1, start, purses[k - 1], purses[k]);
    }
  }

  /**
   Over any number of handled requests with no refresh, whatever the prices, the fills and the outcomes, both tracked
   balances keep at least (1 - fraction)^n of a common starting floor.
   */
  lemma RequestsKeepFraction(
      purses: seq<Purse>, start: real, fraction: real, minTradeSize: real, handled: seq<Handled>)
    requires 0.0 < fraction < 1.0 && 0.0 < minTradeSize
    requires HandledRun(purses, fraction, minTradeSize, handled)
    requires 0.0 <= start <= purses[0].kalshi && start <= purses[0].poly
    ensures 0.0 <= Power(1.0 - fraction, |handled|) * start <= purses[|handled|].kalshi
    ensures Power(1.0 - fraction, |handled|) * start <= purses[|handled|].poly
  {
    RequestsKeep(purses, start, fraction, minTradeSize, handled, |handled|);
  }
}
