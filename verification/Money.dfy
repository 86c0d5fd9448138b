/**
 Prices, order limits and order sizes (`src/picker.rs`, the rounding in `make_fak_order` and
 `hedge_sell_order`). Decimals are exact reals; a limit is a whole number of cents.
 */
module Money {
  import opened Models

  /** Banker's rounding. The two clauses leave one possible value for every argument. */
  function RoundHalfEven(x: real): (n: int)
    ensures n as real - 0.5 <= x <= n as real + 0.5
    ensures x == n as real - 0.5 || x == n as real + 0.5 ==> n % 2 == 0
  {
    var lo := x.Floor;
    var frac := x - lo as real;
    if frac < 0.5 then lo
    else if frac > 0.5 then lo + 1
    else if lo % 2 == 0 then lo else lo + 1
  }

  function Max(a: real, b: real): (r: real)
    ensures a <= r && b <= r && (r == a || r == b)
  {
    if a >= b then a else b
  }

  function Min(a: real, b: real): (r: real)
    ensures r <= a && r <= b && (r == a || r == b)
  {
    if a <= b then a else b
  }

  // ---- buy limits ----

  /** The buy limit, in cents, that a leg submits for a price in dollars. */
  function BuyLimit(platform: Platform, price: real): (cents: int)
    ensures platform.Kalshi? ==> cents as real <= 100.0 * price < cents as real + 1.0
    ensures platform.Polymarket? ==> cents as real - 0.5 <= 100.0 * price <= cents as real + 0.5
  {
    match platform
    case Kalshi => (price * 100.0).Floor
    case Polymarket => RoundHalfEven(price * 100.0)
  }

  /** The executor's acceptance test on the two prices. */
  predicate Accepted(anchorPrice: real, matchPrice: real) {
    0.0 < anchorPrice + matchPrice <= 0.985
  }

  /**
   Whatever the venues, the two submitted limits sum to at most 99 cents: each may be rounded up by
   half a cent, but a sum of whole cents cannot reach 99.5.
   */
  lemma SubmittedLimitsSum(p: Platform, anchorPrice: real, q: Platform, matchPrice: real)
    requires Accepted(anchorPrice, matchPrice)
    ensures BuyLimit(p, anchorPrice) + BuyLimit(q, matchPrice) <= 99
  {
    var a, m := BuyLimit(p, anchorPrice), BuyLimit(q, matchPrice);
    assert (a + m) as real <= 100.0 * (anchorPrice + matchPrice) + 1.0;
  }

  /** 99 cents is reached, with both Polymarket limits rounded up. */
  lemma SubmittedLimitsSumTight()
    ensures Accepted(0.496, 0.489)
    ensures BuyLimit(Polymarket, 0.496) + BuyLimit(Polymarket, 0.489) == 99
  {
    assert RoundHalfEven(49.6) == 50 && RoundHalfEven(48.9) == 49;
  }

  // ---- profit and loss of the pair ----

  datatype Winner = AnchorPays | MatchPays

  /** Exactly one side of an opposite-paying pair pays one dollar per contract. */
  function Payoff(winner: Winner, anchorFill: real, matchFill: real): real {
    match winner
    case AnchorPays => anchorFill
    case MatchPays => matchFill
  }

  /** Whichever side wins, the pair pays a dollar a contract on that side and nothing on the other. */
  lemma OneSidePays(anchorFill: real, matchFill: real)
    ensures Payoff(AnchorPays, anchorFill, 0.0) == anchorFill && Payoff(AnchorPays, 0.0, matchFill) == 0.0
    ensures Payoff(MatchPays, anchorFill, 0.0) == 0.0 && Payoff(MatchPays, 0.0, matchFill) == matchFill
  {
  }

  /** The buy limit in dollars. */
  function LimitDollars(platform: Platform, price: real): real {
    BuyLimit(platform, price) as real / 100.0
  }

  /**
   What an accepted trade returns, at the least, over its outlay: a cent per matched contract, less the
   unmatched contracts at the limit of the leg that over-filled.
   */
  function GuaranteedReturn(anchorLimit: real, matchLimit: real, anchorFill: real, matchFill: real): real {
    if anchorFill >= matchFill
    then 0.01 * matchFill - anchorLimit * (anchorFill - matchFill)
    else 0.01 * anchorFill - matchLimit * (matchFill - anchorFill)
  }

  /** For every accepted pair of prices, every pair of fills paid for at the limit or better, both outcomes. */
  lemma AcceptedTradeReturns(
      p: Platform, anchorPrice: real, q: Platform, matchPrice: real,
      anchorFill: real, anchorPaid: real, matchFill: real, matchPaid: real, winner: Winner)
    requires Accepted(anchorPrice, matchPrice)
    requires 0.0 <= anchorFill && 0.0 <= matchFill
    requires anchorPaid <= LimitDollars(p, anchorPrice) * anchorFill
    requires matchPaid <= LimitDollars(q, matchPrice) * matchFill
    ensures Payoff(winner, anchorFill, matchFill) - (anchorPaid + matchPaid)
            >= GuaranteedReturn(LimitDollars(p, anchorPrice), LimitDollars(q, matchPrice), anchorFill, matchFill)
  {
    SubmittedLimitsSum(p, anchorPrice, q, matchPrice);
    FillsReturn(LimitDollars(p, anchorPrice), LimitDollars(q, matchPrice), anchorFill, anchorPaid, matchFill, matchPaid,
                winner);
  }

  /** The same on limits that sum to 99 cents or less. */
  lemma FillsReturn(a: real, m: real, anchorFill: real, anchorPaid: real, matchFill: real, matchPaid: real,
                    winner: Winner)
    requires a + m <= 0.99 && 0.0 <= anchorFill && 0.0 <= matchFill
    requires anchorPaid <= a * anchorFill && matchPaid <= m * matchFill
    ensures Payoff(winner, anchorFill, matchFill) - (anchorPaid + matchPaid)
            >= GuaranteedReturn(a, m, anchorFill, matchFill)
  {
    if anchorFill >= matchFill {
      UnequalFills(a, m, anchorFill, matchFill, anchorPaid, matchPaid);
    } else {
      UnequalFills(m, a, matchFill, anchorFill, matchPaid, anchorPaid);
    }
  }

  lemma UnequalFills(big: real, small: real, more: real, less: real, bigPaid: real, smallPaid: real)
    requires 0.0 <= less <= more
    requires big + small <= 0.99
    requires bigPaid <= big * more && smallPaid <= small * less
    ensures less - (bigPaid + smallPaid) >= 0.01 * less - big * (more - less)
  {
    var both := (big + small) * less;
    assert both <= 0.99 * less by {
      MulMonotone(big + small, 0.99, less);
    }
    assert big * more + small * less == both + big * (more - less);
  }

  lemma MulMonotone(a: real, b: real, c: real)
    requires a <= b && 0.0 <= c
    ensures a * c <= b * c
  {
    assert (b - a) * c >= 0.0;
  }

  /** The bound is met with equality: an unmatched contract bought at its limit can lose that limit. */
  lemma AcceptedTradeReturnsTight()
    ensures var a, m := LimitDollars(Polymarket, 0.496), LimitDollars(Polymarket, 0.489);
            && Accepted(0.496, 0.489)
            && Payoff(MatchPays, 5.0, 3.0) - (a * 5.0 + m * 3.0) == GuaranteedReturn(a, m, 5.0, 3.0)
  {
    assert RoundHalfEven(49.6) == 50 && RoundHalfEven(48.9) == 49;
  }

  /**
   What a trade returns, at the least, once its hedge has sold `sold` of a gap of `gap` contracts: a cent per matched
   contract and per contract sold, less the unsold ones at their buy limit and any sold beyond the gap at a dollar.
   */
  function HedgedReturn(buyLimit: real, matchedFill: real, gap: real, sold: real): real {
    0.01 * matchedFill + 0.01 * sold - buyLimit * Max(gap - sold, 0.0) - Max(sold - gap, 0.0)
  }

  /** `big` filled `more` contracts, and `sold` of them were sold again a cent or more above its buy limit. */
  lemma HedgedFills(big: real, small: real, more: real, less: real, bigPaid: real, smallPaid: real,
                    sell: real, sold: real, proceeds: real)
    requires 0.0 <= big && 0.0 <= less <= more && 0.0 <= sold
    requires big + small <= 0.99 && big + 0.01 <= sell
    requires bigPaid <= big * more && smallPaid <= small * less && sell * sold <= proceeds
    ensures Min(less, more - sold) - (bigPaid + smallPaid) + proceeds >= HedgedReturn(big, less, more - less, sold)
  {
    var gap := more - less;
    Outlaid(big, small, gap, less, bigPaid, smallPaid);
    Reaped(big, sell, sold, proceeds);
    if sold <= gap {
      assert Min(less, more - sold) == less && Max(gap - sold, 0.0) == gap - sold && Max(sold - gap, 0.0) == 0.0;
      Difference(big, gap, sold);
    } else {
      assert Min(less, more - sold) == more - sold && Max(gap - sold, 0.0) == 0.0 && Max(sold - gap, 0.0) == sold - gap;
      assert big * 0.0 == 0.0;
      MulMonotone(gap, sold, big);
    }
  }

  /** The outlay is at most 99 cents a matched contract, and the limit of the over-filled leg for the gap. */
  lemma Outlaid(big: real, small: real, gap: real, less: real, bigPaid: real, smallPaid: real)
    requires 0.0 <= less && big + small <= 0.99
    requires bigPaid <= big * (less + gap) && smallPaid <= small * less
    ensures bigPaid + smallPaid <= 0.99 * less + big * gap
  {
    MulMonotone(big + small, 0.99, less);
  }

  /** A sale brings a cent a contract more than its limit cost. */
  lemma Reaped(big: real, sell: real, sold: real, proceeds: real)
    requires 0.0 <= sold && big + 0.01 <= sell && sell * sold <= proceeds
    ensures big * sold + 0.01 * sold <= proceeds
  {
    MulMonotone(big + 0.01, sell, sold);
  }

  lemma Difference(a: real, b: real, c: real)
    ensures a * (b - c) == a * b - a * c
  {
  }

  // ---- hedge sells ----

  /** The sell limit, in cents, of the hedge for a leg bought at `price`: two cents up, capped at 99. */
  function HedgeLimit(platform: Platform, price: real): (cents: int)
    ensures platform.Kalshi? && -0.02 <= price ==>
            cents as real <= 100.0 * Min(price + 0.02, 0.99) < cents as real + 1.0
    ensures platform.Kalshi? && price < -0.02 ==> cents == 99
    ensures platform.Polymarket? ==> cents as real - 0.5 <= 100.0 * Min(price + 0.02, 0.99) <= cents as real + 0.5
  {
    var safe := Min(price + 0.02, 0.99);
    match platform
    case Kalshi =>
      var cents := (safe * 100.0).Floor;
      if cents < 0 then 99 else cents
    case Polymarket => RoundHalfEven(safe * 100.0)
  }

  /**
   The hedge never sells above 99 cents, and sells strictly above the leg's own buy limit exactly when
   that limit is itself below 99 cents.
   */
  lemma HedgeAboveBuyIff(platform: Platform, price: real)
    requires 0.0 <= price
    ensures HedgeLimit(platform, price) <= 99
    ensures HedgeLimit(platform, price) > BuyLimit(platform, price) <==> BuyLimit(platform, price) < 99
  {
    if price + 0.02 <= 0.99 {
      assert (price + 0.02) * 100.0 == price * 100.0 + 2.0;
    }
  }

  /**
   Under the acceptance test, and with the other leg's price not negative, every leg's hedge is strictly
   above its buy. On Polymarket this rests on ties going to the even cent: 98.5 rounds to 98.
   */
  lemma AcceptedHedgeAboveBuy(platform: Platform, price: real, otherPrice: real)
    requires Accepted(price, otherPrice) && 0.0 <= price && 0.0 <= otherPrice
    ensures BuyLimit(platform, price) < HedgeLimit(platform, price) <= 99
  {
    HedgeAboveBuyIff(platform, price);
    assert price * 100.0 <= 98.5;
  }

  predicate Whole(x: real) {
    x.Floor as real == x
  }

  /** The hedge limit in dollars. */
  function HedgeDollars(platform: Platform, price: real): real {
    HedgeLimit(platform, price) as real / 100.0
  }

  lemma AcceptedLimits(p: Platform, price: real, q: Platform, otherPrice: real)
    requires Accepted(price, otherPrice) && 0.0 <= price && 0.0 <= otherPrice
    ensures 0.0 <= LimitDollars(p, price) && LimitDollars(p, price) + 0.01 <= HedgeDollars(p, price)
    ensures LimitDollars(p, price) + LimitDollars(q, otherPrice) <= 0.99
  {
    SubmittedLimitsSum(p, price, q, otherPrice);
    AcceptedHedgeAboveBuy(p, price, otherPrice);
  }

  /** The size a hedge submits, or none when a Kalshi excess is under one contract. */
  function HedgeSize(platform: Platform, excess: real): (size: real)
    ensures platform.Kalshi? ==> size <= excess < size + 1.0
    ensures platform.Polymarket? ==> size - 0.005 <= excess <= size + 0.005
    ensures Whole(if platform.Kalshi? then size else size * 100.0)
  {
    match platform
    case Kalshi => excess.Floor as real
    case Polymarket => RoundHalfEven(excess * 100.0) as real / 100.0
  }
}
