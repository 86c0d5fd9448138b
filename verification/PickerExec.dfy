/** The executing task (`exec` in `src/picker.rs`): sizes a request, buys both legs, hedges an imbalance. */
module PickerExec {
  import opened Wrappers
  import opened Models
  import opened Money
  import opened Balances
  import opened OrderBooks
  import opened PickerComms

  const U64_LIMIT := 0x1_0000_0000_0000_0000

  datatype Side = Buy | Sell

  /** An order as submitted: a limit in whole cents and a size in contracts. */
  datatype Order = Order(platform: Platform, token: string, leg: Leg, side: Side, limitCents: int, size: real)

  /** What a venue did with an order: contracts filled and dollars paid. */
  datatype Fill = Fill(filled: real, paid: real)

  /** A venue either fails the call, taken to have traded nothing, or fills up to the size at the limit or better. */
  ghost predicate HonoursLimits(venue: Order -> Option<Fill>) {
    forall o: Order :: venue(o).Some? && o.side.Buy? ==>
      && 0.0 <= venue(o).value.filled <= o.size
      && venue(o).value.paid <= o.limitCents as real / 100.0 * venue(o).value.filled
  }

  /** A fill-and-kill buy; Kalshi takes only whole, positive, 64-bit numbers. */
  function BuyOrder(leg: ArbMinifiedInfo, size: int, price: real): Option<Order> {
    var cents := BuyLimit(leg.platform, price);
    if leg.platform.Kalshi? && !(0 <= cents < U64_LIMIT && 0 < size < U64_LIMIT) then None
    else Some(Order(leg.platform, leg.tokenId, leg.leg, Buy, cents, size as real))
  }

  /** The sell that unwinds an over-filled leg; a Kalshi excess under one contract is skipped. */
  function HedgeOrder(leg: ArbMinifiedInfo, excess: real, price: real): Option<Order> {
    var size := HedgeSize(leg.platform, excess);
    if leg.platform.Kalshi? && (size <= 0.0 || size >= U64_LIMIT as real) then None
    else Some(Order(leg.platform, leg.tokenId, leg.leg, Sell, HedgeLimit(leg.platform, price), size))
  }

  /** What the hedge as submitted does not cover, skipped or not. */
  function Unhedged(leg: ArbMinifiedInfo, excess: real, price: real): real {
    match HedgeOrder(leg, excess, price)
    case None => excess
    case Some(o) => excess - o.size
  }

  /** A positive excess is hedged to within a contract on Kalshi and within half a cent-contract on Polymarket. */
  lemma HedgeLeavesLittle(leg: ArbMinifiedInfo, excess: real, price: real)
    requires 0.0 < excess < U64_LIMIT as real
    ensures leg.platform.Kalshi? ==> 0.0 <= Unhedged(leg, excess, price) < 1.0
    ensures leg.platform.Polymarket? ==> -0.005 <= Unhedged(leg, excess, price) <= 0.005
    ensures HedgeOrder(leg, excess, price).None? <==> leg.platform.Kalshi? && excess < 1.0
  {
  }

  /**
   A sized buy is always submitted, for the same count on both venues, unless a Kalshi limit is negative or too wide.
   */
  lemma SizedBuysAreSubmitted(leg: ArbMinifiedInfo, size: int, price: real)
    requires 0 < size < U64_LIMIT && 0.0 <= price <= 0.985
    ensures BuyOrder(leg, size, price).Some? && BuyOrder(leg, size, price).value.size == size as real
  {
  }

  /**
   A buy is refused before it is sent exactly on Kalshi, for a negative price, no contracts, or a number past 64 bits.
   */
  lemma BuyRefusedIff(leg: ArbMinifiedInfo, size: int, price: real)
    ensures BuyOrder(leg, size, price).None? <==>
            && leg.platform.Kalshi?
            && (price < 0.0 || 18_446_744_073_709_551_616.0 <= 100.0 * price
                || size <= 0 || 18_446_744_073_709_551_616 <= size)
  {
  }

  /** A hedge is skipped exactly on Kalshi, under one contract or past 64 bits. */
  lemma HedgeSkippedIff(leg: ArbMinifiedInfo, excess: real, price: real)
    ensures HedgeOrder(leg, excess, price).None? <==>
            leg.platform.Kalshi? && (excess < 1.0 || 18_446_744_073_709_551_616.0 <= excess)
  {
  }

  // ---- the handler ----

  /** An access to the state shared with the watching task, in the order made. */
  datatype Access = StampCooldown(c: Cid) | ReleaseInFlight(c: Cid)

  /** Messages to the server. The two legs' fills travel with the excess. */
  datatype Report =
    | OrderSubmitted(c: Cid, anchorFill: real, matchFill: real, excess: real)
    | ExcessFillSubmitted(platform: Platform, size: real, price: real)

  datatype Outcome =
    | NoMetrics
    | Rejected(anchorPrice: real, matchPrice: real)
    | NotSized
    | Traded(anchorPrice: real, matchPrice: real, size: int,
             anchorOrder: Option<Order>, matchOrder: Option<Order>,
             anchor: Fill, matched: Fill, hedge: Option<Order>)
  {
    /** Cool-downs: the prices no longer sum below a dollar, or both legs filled nothing. */
    predicate CoolsDown() {
      || (Rejected? && anchorPrice + matchPrice >= 1.0)
      || (Traded? && anchor.filled == 0.0 && matched.filled == 0.0)
    }
  }

  function Ask(order: Option<Order>, venue: Order -> Option<Fill>): Fill {
    if order.None? || venue(order.value).None? then Fill(0.0, 0.0) else venue(order.value).value
  }

  /** The prices and liquidity the executor goes by. */
  function Prices(optimistic: bool, req: ExecutionRequest,
                  fetch: ArbMinifiedInfo -> Option<VenueBook>): Option<(Metrics, Metrics)> {
    if optimistic then Some((Metrics(req.anchorWsPrice, req.anchorWsSize), Metrics(req.matchWsPrice, req.matchWsSize)))
    else
      match (fetch(req.anchor), fetch(req.matched))
      case (Some(a), Some(m)) =>
        (match (HttpMetrics(req.anchor, a), HttpMetrics(req.matched, m))
         case (Some(am), Some(mm)) => Some((am, mm))
         case _ => None)
      case _ => None
  }

  /** The hedge, if the fills differ: of the leg that filled more, for the difference. */
  function HedgeFor(req: ExecutionRequest, anchorPrice: real, anchorFilled: real, matchPrice: real,
                    matchFilled: real): Option<Order> {
    if anchorFilled > matchFilled then HedgeOrder(req.anchor, anchorFilled - matchFilled, anchorPrice)
    else if matchFilled > anchorFilled then HedgeOrder(req.matched, matchFilled - anchorFilled, matchPrice)
    else None
  }

  function Settle(req: ExecutionRequest, anchorPrice: real, matchPrice: real, size: int,
                  venue: Order -> Option<Fill>): Outcome {
    var anchorOrder, matchOrder := BuyOrder(req.anchor, size, anchorPrice), BuyOrder(req.matched, size, matchPrice);
    var anchor, matched := Ask(anchorOrder, venue), Ask(matchOrder, venue);
    Traded(anchorPrice, matchPrice, size, anchorOrder, matchOrder, anchor, matched,
           HedgeFor(req, anchorPrice, anchor.filled, matchPrice, matched.filled))
  }

  /** What becomes of a request, from the prices, the tracked balances and the venues' answers. */
  function Decide(prices: Option<(Metrics, Metrics)>, purse: Purse, fraction: real, minTradeSize: real,
                  req: ExecutionRequest, venue: Order -> Option<Fill>): Outcome {
    match prices
    case None => NoMetrics
    case Some((a, m)) =>
      if !Accepted(a.price, m.price) then Rejected(a.price, m.price)
      else
        match ComputeSize(purse, fraction, minTradeSize, a.price, m.price, Min(a.size, m.size))
        case None => NotSized
        case Some(size) => Settle(req, a.price, m.price, size, venue)
  }

  /** A buy of `size` contracts of the leg's own token and side. */
  predicate BuysLeg(order: Option<Order>, leg: ArbMinifiedInfo, size: int) {
    order.Some? ==>
      && order.value.platform == leg.platform && order.value.token == leg.tokenId && order.value.leg == leg.leg
      && order.value.side.Buy? && order.value.size == size as real
  }

  /**
   Orders go out only for accepted prices, for the greatest affordable positive count, at limits summing to 99 cents or
   less.
   */
  lemma TradesAreGuarded(prices: Option<(Metrics, Metrics)>, purse: Purse, fraction: real, minTradeSize: real,
                         req: ExecutionRequest, venue: Order -> Option<Fill>)
    requires 0.0 < minTradeSize && HonoursLimits(venue)
    ensures var o := Decide(prices, purse, fraction, minTradeSize, req, venue);
            o.Traded? ==>
              && Accepted(o.anchorPrice, o.matchPrice) && 0 < o.size
              && Fits(o.size, Budget(purse, fraction), o.anchorPrice + o.matchPrice,
                      Min(prices.value.0.size, prices.value.1.size))
              && BuysLeg(o.anchorOrder, req.anchor, o.size) && BuysLeg(o.matchOrder, req.matched, o.size)
              && 0.0 <= o.anchor.filled <= o.size as real && 0.0 <= o.matched.filled <= o.size as real
              && (o.anchorOrder.Some? && o.matchOrder.Some? ==>
                    o.anchorOrder.value.limitCents + o.matchOrder.value.limitCents <= 99)
  {
    var o := Decide(prices, purse, fraction, minTradeSize, req, venue);
    if o.Traded? {
      var liquidity := Min(prices.value.0.size, prices.value.1.size);
      ComputeSizePositive(purse, fraction, minTradeSize, o.anchorPrice, o.matchPrice, liquidity);
      ComputeSizeIsGreatest(purse, fraction, minTradeSize, o.anchorPrice, o.matchPrice, liquidity, o.size);
      SubmittedLimitsSum(req.anchor.platform, o.anchorPrice, req.matched.platform, o.matchPrice);
    }
  }

  /**
   Whatever the venues fill and whichever side pays, a trade returns at least the guaranteed amount over its outlay.
   */
  lemma TradesReturn(prices: Option<(Metrics, Metrics)>, purse: Purse, fraction: real, minTradeSize: real,
                     req: ExecutionRequest, venue: Order -> Option<Fill>, winner: Winner)
    requires 0.0 < minTradeSize && HonoursLimits(venue)
    ensures var o := Decide(prices, purse, fraction, minTradeSize, req, venue);
            o.Traded? ==>
              Payoff(winner, o.anchor.filled, o.matched.filled) - (o.anchor.paid + o.matched.paid)
              >= GuaranteedReturn(LimitDollars(req.anchor.platform, o.anchorPrice),
                                  LimitDollars(req.matched.platform, o.matchPrice), o.anchor.filled, o.matched.filled)
  {
    var o := Decide(prices, purse, fraction, minTradeSize, req, venue);
    if o.Traded? {
      TradesAreGuarded(prices, purse, fraction, minTradeSize, req, venue);
      SettleReturns(req, o.anchorPrice, o.matchPrice, o.size, venue, winner);
    }
  }

  lemma SettleReturns(req: ExecutionRequest, anchorPrice: real, matchPrice: real, size: int,
                      venue: Order -> Option<Fill>, winner: Winner)
    requires Accepted(anchorPrice, matchPrice) && 0 < size && HonoursLimits(venue)
    ensures var o := Settle(req, anchorPrice, matchPrice, size, venue);
            Payoff(winner, o.anchor.filled, o.matched.filled) - (o.anchor.paid + o.matched.paid)
            >= GuaranteedReturn(LimitDollars(req.anchor.platform, anchorPrice),
                                LimitDollars(req.matched.platform, matchPrice), o.anchor.filled, o.matched.filled)
  {
    var anchor := Ask(BuyOrder(req.anchor, size, anchorPrice), venue);
    var matched := Ask(BuyOrder(req.matched, size, matchPrice), venue);
    PaidWithinLimit(req.anchor, size, anchorPrice, venue);
    PaidWithinLimit(req.matched, size, matchPrice, venue);
    PaidReturns(req, anchorPrice, anchor, matchPrice, matched, winner);
  }

  lemma PaidReturns(req: ExecutionRequest, anchorPrice: real, anchor: Fill, matchPrice: real, matched: Fill,
                    winner: Winner)
    requires Accepted(anchorPrice, matchPrice) && LegPaid(req.anchor, anchorPrice, anchor)
             && LegPaid(req.matched, matchPrice, matched)
    ensures Payoff(winner, anchor.filled, matched.filled) - (anchor.paid + matched.paid)
            >= GuaranteedReturn(LimitDollars(req.anchor.platform, anchorPrice),
                                LimitDollars(req.matched.platform, matchPrice), anchor.filled, matched.filled)
  {
    AcceptedTradeReturns(req.anchor.platform, anchorPrice, req.matched.platform, matchPrice,
                         anchor.filled, anchor.paid, matched.filled, matched.paid, winner);
  }

  /** A fill paid for at a limit or better. */
  predicate PaidAt(limit: real, fill: Fill) {
    0.0 <= fill.filled && fill.paid <= limit * fill.filled
  }

  predicate LegPaid(leg: ArbMinifiedInfo, price: real, fill: Fill) {
    PaidAt(LimitDollars(leg.platform, price), fill)
  }

  lemma PaidWithinLimit(leg: ArbMinifiedInfo, size: int, price: real, venue: Order -> Option<Fill>)
    requires HonoursLimits(venue) && 0 < size
    ensures LegPaid(leg, price, Ask(BuyOrder(leg, size, price), venue))
  {
    var order := BuyOrder(leg, size, price);
    if order.Some? {
      assert order.value.limitCents as real / 100.0 == LimitDollars(leg.platform, price);
    }
  }

  /**
   The hedge as submitted sells the over-filled leg and covers the gap but for less than a contract on Kalshi, and to
   within half a cent-contract on Polymarket. What it sells in the end is for its venue to say: see HedgedTradesReturn.
   */
  lemma HedgeCoversGap(prices: Option<(Metrics, Metrics)>, purse: Purse, fraction: real, minTradeSize: real,
                       req: ExecutionRequest, venue: Order -> Option<Fill>)
    requires 0.0 < minTradeSize && HonoursLimits(venue)
    ensures var o := Decide(prices, purse, fraction, minTradeSize, req, venue);
            o.Traded? && o.size < U64_LIMIT ==>
              var gap := o.anchor.filled - o.matched.filled;
              var leg := if gap >= 0.0 then req.anchor else req.matched;
              var uncovered := Max(gap, -gap) - if o.hedge.Some? then o.hedge.value.size else 0.0;
              && (leg.platform.Kalshi? ==> 0.0 <= uncovered < 1.0)
              && (leg.platform.Polymarket? ==> -0.005 <= uncovered <= 0.005)
              && (o.hedge.Some? ==>
                    && o.hedge.value.token == leg.tokenId && o.hedge.value.leg == leg.leg && o.hedge.value.side.Sell?)
  {
    var o := Decide(prices, purse, fraction, minTradeSize, req, venue);
    if o.Traded? && o.size < U64_LIMIT {
      TradesAreGuarded(prices, purse, fraction, minTradeSize, req, venue);
      var gap := o.anchor.filled - o.matched.filled;
      if gap > 0.0 {
        HedgeLeavesLittle(req.anchor, gap, o.anchorPrice);
      } else if gap < 0.0 {
        HedgeLeavesLittle(req.matched, -gap, o.matchPrice);
      }
    }
  }

  /** The size that rests at the venue: none when the hedge was skipped or refused. */
  function Resting(hedge: Option<Order>, venue: Order -> Option<Fill>): real {
    if hedge.Some? && venue(hedge.value).Some? then hedge.value.size else 0.0
  }

  /** In the end a resting hedge has sold any part of its size, at its limit or better. */
  predicate HedgeSells(hedge: Option<Order>, venue: Order -> Option<Fill>, sold: real, proceeds: real) {
    && 0.0 <= sold <= Resting(hedge, venue) && 0.0 <= proceeds
    && (0.0 < sold ==> SoldAt(hedge.value.limitCents as real / 100.0, sold, proceeds))
  }

  /**
   A hedge that was skipped or refused sells nothing; one that was placed may sell any part of its size at its limit.
   */
  lemma OnlyPlacedHedgesSell(hedge: Option<Order>, venue: Order -> Option<Fill>, sold: real, proceeds: real)
    ensures (hedge.None? || venue(hedge.value).None?) && HedgeSells(hedge, venue, sold, proceeds) ==> sold == 0.0
    ensures hedge.Some? && venue(hedge.value).Some? && 0.0 < sold <= hedge.value.size && 0.0 <= proceeds ==>
              (HedgeSells(hedge, venue, sold, proceeds) <==>
               SoldAt(hedge.value.limitCents as real / 100.0, sold, proceeds))
  {
  }

  /** The position pays out what was bought and not sold again. */
  function HeldPayoff(winner: Winner, o: Outcome, sold: real): real
    requires o.Traded?
  {
    if o.anchor.filled >= o.matched.filled then Payoff(winner, o.anchor.filled - sold, o.matched.filled)
    else Payoff(winner, o.anchor.filled, o.matched.filled - sold)
  }

  /** The bound on the return of a trade with buy limits `a` and `m` whose hedge has sold `sold`. */
  function OutcomeReturn(o: Outcome, a: real, m: real, sold: real): real
    requires o.Traded?
  {
    if o.anchor.filled >= o.matched.filled
    then HedgedReturn(a, o.matched.filled, o.anchor.filled - o.matched.filled, sold)
    else HedgedReturn(m, o.anchor.filled, o.matched.filled - o.anchor.filled, sold)
  }

  /** What is paid out, less the outlay and with the hedge's proceeds, reaches the bound. */
  predicate Returns(o: Outcome, winner: Winner, a: real, m: real, sold: real, proceeds: real)
    requires o.Traded?
  {
    HeldPayoff(winner, o, sold) - (o.anchor.paid + o.matched.paid) + proceeds >= OutcomeReturn(o, a, m, sold)
  }

  /**
   With the hedge counted in, whatever part of it sells, none if it is skipped, refused or never met, and whichever
   side pays: the contracts still unmatched are the gap less what was sold, and they are all that can lose.
   */
  lemma HedgedTradesReturn(prices: Option<(Metrics, Metrics)>, purse: Purse, fraction: real, minTradeSize: real,
                           req: ExecutionRequest, venue: Order -> Option<Fill>, winner: Winner, sold: real,
                           proceeds: real)
    requires 0.0 < minTradeSize && HonoursLimits(venue)
    ensures var o := Decide(prices, purse, fraction, minTradeSize, req, venue);
            o.Traded? && 0.0 <= o.anchorPrice && 0.0 <= o.matchPrice && HedgeSells(o.hedge, venue, sold, proceeds) ==>
              Returns(o, winner, LimitDollars(req.anchor.platform, o.anchorPrice),
                      LimitDollars(req.matched.platform, o.matchPrice), sold, proceeds)
  {
    var o := Decide(prices, purse, fraction, minTradeSize, req, venue);
    if o.Traded? && 0.0 <= o.anchorPrice && 0.0 <= o.matchPrice && HedgeSells(o.hedge, venue, sold, proceeds) {
      TradesAreGuarded(prices, purse, fraction, minTradeSize, req, venue);
      SettleHedgedReturns(req, o.anchorPrice, o.matchPrice, o.size, venue, winner, sold, proceeds);
    }
  }

  lemma SettleHedgedReturns(req: ExecutionRequest, anchorPrice: real, matchPrice: real, size: int,
                            venue: Order -> Option<Fill>, winner: Winner, sold: real, proceeds: real)
    requires Accepted(anchorPrice, matchPrice) && 0.0 <= anchorPrice && 0.0 <= matchPrice && 0 < size
             && HonoursLimits(venue)
    requires HedgeSells(Settle(req, anchorPrice, matchPrice, size, venue).hedge, venue, sold, proceeds)
    ensures var o := Settle(req, anchorPrice, matchPrice, size, venue);
            Returns(o, winner, LimitDollars(req.anchor.platform, anchorPrice),
                    LimitDollars(req.matched.platform, matchPrice), sold, proceeds)
  {
    var o := Settle(req, anchorPrice, matchPrice, size, venue);
    SettleFacts(req, anchorPrice, matchPrice, size, venue, sold, proceeds);
    LimitedReturns(req, o, winner, sold, proceeds);
  }

  /** Both fills paid for within their limits, and the hedge sold at its own. */
  predicate Settled(req: ExecutionRequest, o: Outcome, sold: real, proceeds: real) {
    && o.Traded? && Accepted(o.anchorPrice, o.matchPrice) && 0.0 <= o.anchorPrice && 0.0 <= o.matchPrice
    && LegPaid(req.anchor, o.anchorPrice, o.anchor) && LegPaid(req.matched, o.matchPrice, o.matched)
    && 0.0 <= sold
    && SoldAt(SellDollars(req, o.anchorPrice, o.anchor.filled, o.matchPrice, o.matched.filled), sold, proceeds)
  }

  lemma SettleFacts(req: ExecutionRequest, anchorPrice: real, matchPrice: real, size: int,
                    venue: Order -> Option<Fill>, sold: real, proceeds: real)
    requires Accepted(anchorPrice, matchPrice) && 0.0 <= anchorPrice && 0.0 <= matchPrice && 0 < size
             && HonoursLimits(venue)
    requires HedgeSells(Settle(req, anchorPrice, matchPrice, size, venue).hedge, venue, sold, proceeds)
    ensures Settled(req, Settle(req, anchorPrice, matchPrice, size, venue), sold, proceeds)
  {
    var o := Settle(req, anchorPrice, matchPrice, size, venue);
    PaidWithinLimit(req.anchor, size, anchorPrice, venue);
    PaidWithinLimit(req.matched, size, matchPrice, venue);
    SoldAtLimit(req, anchorPrice, o.anchor.filled, matchPrice, o.matched.filled, venue, sold, proceeds);
  }

  predicate SoldAt(sell: real, sold: real, proceeds: real) {
    sell * sold <= proceeds
  }

  /** The limit that the hedge of an outcome sells at. */
  function SellDollars(req: ExecutionRequest, anchorPrice: real, anchorFilled: real, matchPrice: real,
                       matchFilled: real): real {
    if anchorFilled >= matchFilled then HedgeDollars(req.anchor.platform, anchorPrice)
    else HedgeDollars(req.matched.platform, matchPrice)
  }

  lemma LimitedReturns(req: ExecutionRequest, o: Outcome, winner: Winner, sold: real, proceeds: real)
    requires Settled(req, o, sold, proceeds)
    ensures Returns(o, winner, LimitDollars(req.anchor.platform, o.anchorPrice),
                    LimitDollars(req.matched.platform, o.matchPrice), sold, proceeds)
  {
    var p, q := req.anchor.platform, req.matched.platform;
    AcceptedLimits(p, o.anchorPrice, q, o.matchPrice);
    AcceptedLimits(q, o.matchPrice, p, o.anchorPrice);
    HeldReturns(o, winner, LimitDollars(p, o.anchorPrice), LimitDollars(q, o.matchPrice),
                SellDollars(req, o.anchorPrice, o.anchor.filled, o.matchPrice, o.matched.filled), sold, proceeds);
  }

  lemma SoldAtLimit(req: ExecutionRequest, anchorPrice: real, anchorFilled: real, matchPrice: real, matchFilled: real,
                    venue: Order -> Option<Fill>, sold: real, proceeds: real)
    requires HedgeSells(HedgeFor(req, anchorPrice, anchorFilled, matchPrice, matchFilled), venue, sold, proceeds)
    ensures SoldAt(SellDollars(req, anchorPrice, anchorFilled, matchPrice, matchFilled), sold, proceeds)
  {
    if sold == 0.0 {
      NothingSold(SellDollars(req, anchorPrice, anchorFilled, matchPrice, matchFilled), proceeds);
    }
  }

  lemma NothingSold(sell: real, proceeds: real)
    requires 0.0 <= proceeds
    ensures SoldAt(sell, 0.0, proceeds)
  {
  }

  /**
   The same on numbers: buy limits `a` and `m`, and a sale at `sell`, a cent or more above the limit of the over-filled
   leg.
   */
  lemma HeldReturns(o: Outcome, winner: Winner, a: real, m: real, sell: real, sold: real, proceeds: real)
    requires o.Traded? && 0.0 <= a && 0.0 <= m && a + m <= 0.99
    requires PaidAt(a, o.anchor) && PaidAt(m, o.matched) && 0.0 <= sold && SoldAt(sell, sold, proceeds)
    requires (if o.anchor.filled >= o.matched.filled then a else m) + 0.01 <= sell
    ensures Returns(o, winner, a, m, sold, proceeds)
  {
    if o.anchor.filled >= o.matched.filled {
      HedgedFills(a, m, o.anchor.filled, o.matched.filled, o.anchor.paid, o.matched.paid, sell, sold, proceeds);
    } else {
      HedgedFills(m, a, o.matched.filled, o.anchor.filled, o.matched.paid, o.anchor.paid, sell, sold, proceeds);
    }
  }

  /** The trade of the balance bound that an accepted request amounts to. */
  function TradeOf(a: Metrics, m: Metrics, purse: Purse, fraction: real, minTradeSize: real, req: ExecutionRequest,
                   venue: Order -> Option<Fill>): Trade {
    var o := Decide(Some((a, m)), purse, fraction, minTradeSize, req, venue);
    var fills := if o.Traded? then (o.anchor.filled, o.matched.filled) else (0.0, 0.0);
    Trade(req.anchor.platform, a.price, req.matched.platform, m.price, Min(a.size, m.size), fills.0, fills.1)
  }

  /** The prices and sizes of a trade are those that `a` and `m` show. */
  predicate TradesAt(o: Outcome, a: Metrics, m: Metrics)
    requires o.Traded?
  {
    && o.anchorPrice == a.price && o.matchPrice == m.price
    && o.size as real <= a.size && o.size as real <= m.size
  }

  /**
   Each leg is bought at its own price and within its own size: of its own book, or of the request in optimistic mode.
   */
  lemma TradesAtOwnPrices(optimistic: bool, req: ExecutionRequest, fetch: ArbMinifiedInfo -> Option<VenueBook>,
                          purse: Purse, fraction: real, minTradeSize: real, venue: Order -> Option<Fill>)
    requires 0.0 < minTradeSize && HonoursLimits(venue)
    ensures var o := Decide(Prices(optimistic, req, fetch), purse, fraction, minTradeSize, req, venue);
            o.Traded? ==>
              if optimistic
              then TradesAt(o, Metrics(req.anchorWsPrice, req.anchorWsSize), Metrics(req.matchWsPrice, req.matchWsSize))
              else
                && fetch(req.anchor).Some? && fetch(req.matched).Some?
                && exists a, m ::
                     && QuotesLeg(req.anchor, fetch(req.anchor).value, a)
                     && QuotesLeg(req.matched, fetch(req.matched).value, m) && TradesAt(o, a, m)
  {
    var prices := Prices(optimistic, req, fetch);
    var o := Decide(prices, purse, fraction, minTradeSize, req, venue);
    if o.Traded? {
      TradesAreGuarded(prices, purse, fraction, minTradeSize, req, venue);
      if !optimistic {
        MetricsAreTheLegs(req.anchor, fetch(req.anchor).value, prices.value.0);
        MetricsAreTheLegs(req.matched, fetch(req.matched).value, prices.value.1);
      }
    }
  }

  /** On an ascending Kalshi book the leg's own price is the cheapest against every opposing bid. */
  lemma OwnPriceIsCheapest(leg: ArbMinifiedInfo, yes: seq<Level>, no: seq<Level>, m: Metrics)
    requires QuotesLeg(leg, KalshiBook(Some(yes), Some(no)), m)
    requires Readable(yes) && Readable(no) && Ascending(yes) && Ascending(no)
    ensures CheapestAgainst(m.price, if leg.leg.Left? then no else yes)
  {
    var bids := if leg.leg.Left? then no else yes;
    assert bids[|bids| - 1].price.value == 1.0 - m.price;
  }

  /** What handling charges an accepted request is one trade of the balance bound. */
  lemma HandlingIsATrade(a: Metrics, m: Metrics, purse: Purse, fraction: real, minTradeSize: real,
                         req: ExecutionRequest, venue: Order -> Option<Fill>)
    requires Accepted(a.price, m.price) && 0.0 < minTradeSize && HonoursLimits(venue)
    ensures var o := Decide(Some((a, m)), purse, fraction, minTradeSize, req, venue);
            var t := TradeOf(a, m, purse, fraction, minTradeSize, req, venue);
            && ChargedPurse(purse, req, o) == AfterTrade(purse, fraction, minTradeSize, t)
            && (0.0 <= a.price && 0.0 <= m.price ==> Plausible(purse, fraction, minTradeSize, t))
  {
    TradesAreGuarded(Some((a, m)), purse, fraction, minTradeSize, req, venue);
  }

  /** The balances once a request is handled: a trade is charged for what both legs filled. */
  function ChargedPurse(purse: Purse, req: ExecutionRequest, o: Outcome): Purse {
    if o.Traded?
    then Deduct(purse, req.anchor.platform, o.anchorPrice, req.matched.platform, o.matchPrice,
                Min(o.anchor.filled, o.matched.filled))
    else purse
  }

  /** A trade's fills as reported, with how far they differ. */
  function FillsReport(c: Cid, anchor: Fill, matched: Fill): Report {
    OrderSubmitted(c, anchor.filled, matched.filled,
                   Max(anchor.filled - matched.filled, matched.filled - anchor.filled))
  }

  /** The sale of the excess as reported. */
  function SaleReport(leg: ArbMinifiedInfo, excess: real, price: real): Report {
    ExcessFillSubmitted(leg.platform, excess, Min(price + 0.02, 0.99))
  }

  /**
   The messages a trade sends, in whichever order: none when both legs missed, otherwise the fills, and a hedge that was
   placed.
   */
  function ReportsOf(req: ExecutionRequest, o: Outcome, venue: Order -> Option<Fill>): multiset<Report> {
    if !o.Traded? || o.CoolsDown() then multiset{}
    else
      TradeReports(req, o.anchorPrice, o.matchPrice, o.anchor, o.matched,
                   o.hedge.Some? && venue(o.hedge.value).Some?)
  }

  function TradeReports(req: ExecutionRequest, anchorPrice: real, matchPrice: real, anchor: Fill, matched: Fill,
                        placed: bool): multiset<Report> {
    if !placed then multiset{FillsReport(req.cid, anchor, matched)}
    else if anchor.filled > matched.filled
    then multiset{FillsReport(req.cid, anchor, matched),
                  SaleReport(req.anchor, anchor.filled - matched.filled, anchorPrice)}
    else multiset{FillsReport(req.cid, anchor, matched),
                  SaleReport(req.matched, matched.filled - anchor.filled, matchPrice)}
  }

  /** A reported sale against the order placed: the report gives the whole excess, and the price before rounding. */
  predicate Overstates(order: Order, size: real, price: real) {
    match order.platform
    case Kalshi => 0.0 <= size - order.size < 1.0 && 0.0 <= price * 100.0 - order.limitCents as real < 1.0
    case Polymarket => -0.005 <= size - order.size <= 0.005 && -0.5 <= price * 100.0 - order.limitCents as real <= 0.5
  }

  /** The reports tell of the trade if anything filled, once and truly, and of the hedge if it was placed. */
  ghost predicate Accounted(req: ExecutionRequest, o: Outcome, reports: multiset<Report>, placed: bool)
    requires o.Traded?
  {
    && |reports| == (if o.anchor.filled + o.matched.filled == 0.0 then 0 else if placed then 2 else 1)
    && (forall r :: r in reports && r.OrderSubmitted? ==>
          && r.c == req.cid && r.anchorFill == o.anchor.filled && r.matchFill == o.matched.filled
          && r.excess == Max(r.anchorFill - r.matchFill, r.matchFill - r.anchorFill))
    && ((exists r :: r in reports && r.ExcessFillSubmitted?) <==> placed)
    && (forall r :: r in reports && r.ExcessFillSubmitted? && 0.0 <= o.anchorPrice && 0.0 <= o.matchPrice ==>
          o.hedge.Some? && r.platform == o.hedge.value.platform && Overstates(o.hedge.value, r.size, r.price))
  }

  lemma OutcomeAccount(req: ExecutionRequest, o: Outcome, venue: Order -> Option<Fill>)
    requires o.Traded? && 0.0 <= o.anchor.filled && 0.0 <= o.matched.filled
    requires o.hedge == HedgeFor(req, o.anchorPrice, o.anchor.filled, o.matchPrice, o.matched.filled)
    ensures Accounted(req, o, ReportsOf(req, o, venue), o.hedge.Some? && venue(o.hedge.value).Some?)
  {
    if o.hedge.Some? && venue(o.hedge.value).Some? {
      if o.anchor.filled > o.matched.filled {
        SaleAccount(req, o, req.anchor, o.anchor.filled - o.matched.filled, o.anchorPrice);
      } else {
        SaleAccount(req, o, req.matched, o.matched.filled - o.anchor.filled, o.matchPrice);
      }
    } else {
      FillsAccount(req, o);
    }
  }

  lemma FillsAccount(req: ExecutionRequest, o: Outcome)
    requires o.Traded? && 0.0 <= o.anchor.filled && 0.0 <= o.matched.filled
    ensures Accounted(req, o,
                      if o.CoolsDown() then multiset{} else multiset{FillsReport(req.cid, o.anchor, o.matched)}, false)
  {
  }

  lemma SaleAccount(req: ExecutionRequest, o: Outcome, leg: ArbMinifiedInfo, excess: real, price: real)
    requires o.Traded? && excess == Max(o.anchor.filled - o.matched.filled, o.matched.filled - o.anchor.filled)
    requires 0.0 < excess && 0.0 <= o.anchor.filled && 0.0 <= o.matched.filled
    requires price == o.anchorPrice || price == o.matchPrice
    requires o.hedge.Some? && o.hedge == HedgeOrder(leg, excess, price)
    ensures Accounted(req, o, multiset{FillsReport(req.cid, o.anchor, o.matched), SaleReport(leg, excess, price)}, true)
  {
    var reports := multiset{FillsReport(req.cid, o.anchor, o.matched), SaleReport(leg, excess, price)};
    assert SaleReport(leg, excess, price) in reports;
    if 0.0 <= price {
      HedgeReportOverstates(leg, excess, price);
    }
  }

  /**
   What the server is told: of a trade exactly when something filled, once and with the true fills; of a hedge exactly
   when one was placed, off by less than a contract and a cent from what was placed.
   */
  lemma ReportsAccount(prices: Option<(Metrics, Metrics)>, purse: Purse, fraction: real, minTradeSize: real,
                       req: ExecutionRequest, venue: Order -> Option<Fill>)
    requires 0.0 < minTradeSize && HonoursLimits(venue)
    ensures var o := Decide(prices, purse, fraction, minTradeSize, req, venue);
            o.Traded? ==>
              Accounted(req, o, ReportsOf(req, o, venue), o.hedge.Some? && venue(o.hedge.value).Some?)
  {
    var o := Decide(prices, purse, fraction, minTradeSize, req, venue);
    if o.Traded? {
      TradesAreGuarded(prices, purse, fraction, minTradeSize, req, venue);
      OutcomeAccount(req, o, venue);
    }
  }

  lemma HedgeReportOverstates(leg: ArbMinifiedInfo, excess: real, price: real)
    requires 0.0 <= price && HedgeOrder(leg, excess, price).Some?
    ensures var report := SaleReport(leg, excess, price);
            Overstates(HedgeOrder(leg, excess, price).value, report.size, report.price)
  {
  }

  class PickerExec {
    const shared: Shared
    const balances: BalanceTracker
    const optimistic: bool

    constructor (shared: Shared, balances: BalanceTracker, optimistic: bool)
      ensures this.shared == shared && this.balances == balances && this.optimistic == optimistic
    {
      this.shared, this.balances, this.optimistic := shared, balances, optimistic;
    }

    /** Handles one request to its end. Every path releases the id, after any cool-down stamp and as its last access. */
    method HandleExecutionRequest(req: ExecutionRequest, fetch: ArbMinifiedInfo -> Option<VenueBook>,
                                  venue: Order -> Option<Fill>, now: int, fillsFirst: bool)
      returns (o: Outcome, trace: seq<Access>, reports: seq<Report>)
      modifies shared`inFlight, shared`cooldown, balances
      ensures o == Decide(Prices(optimistic, req, fetch), old(balances.Held()), balances.tradeFraction,
                          balances.minTradeSize, req, venue)
      ensures trace == (if o.CoolsDown() then [StampCooldown(req.cid)] else []) + [ReleaseInFlight(req.cid)]
      ensures shared.inFlight == old(shared.inFlight) - {req.cid}
      ensures shared.cooldown == if o.CoolsDown() then old(shared.cooldown)[req.cid := now] else old(shared.cooldown)
      ensures balances.Held() == ChargedPurse(old(balances.Held()), req, o)
      ensures multiset(reports) == ReportsOf(req, o, venue)
    {
      trace, reports := [], [];
      var prices := Prices(optimistic, req, fetch);
      if prices.None? {
        trace := Release(req.cid, trace);
        return NoMetrics, trace, reports;
      }
      var a, m := prices.value.0, prices.value.1;
      var total := a.price + m.price;
      if total <= 0.0 || total > 0.985 {
        if total >= 1.0 {
          trace := Stamp(req.cid, now, trace);
        }
        trace := Release(req.cid, trace);
        return Rejected(a.price, m.price), trace, reports;
      }
      var size := ComputeSize(balances.Held(), balances.tradeFraction, balances.minTradeSize, a.price, m.price,
                              Min(a.size, m.size));
      if size.None? {
        trace := Release(req.cid, trace);
        return NotSized, trace, reports;
      }
      o, trace, reports := PlaceOrders(req, a.price, m.price, size.value, venue, now, fillsFirst);
    }

    /** Both buys, the charge for what they matched, and the hedge of what they did not. */
    method PlaceOrders(req: ExecutionRequest, anchorPrice: real, matchPrice: real, size: int,
                       venue: Order -> Option<Fill>, now: int, fillsFirst: bool)
      returns (o: Outcome, trace: seq<Access>, reports: seq<Report>)
      modifies shared`inFlight, shared`cooldown, balances
      ensures o == Settle(req, anchorPrice, matchPrice, size, venue)
      ensures trace == (if o.CoolsDown() then [StampCooldown(req.cid)] else []) + [ReleaseInFlight(req.cid)]
      ensures shared.inFlight == old(shared.inFlight) - {req.cid}
      ensures shared.cooldown == if o.CoolsDown() then old(shared.cooldown)[req.cid := now] else old(shared.cooldown)
      ensures balances.Held() == ChargedPurse(old(balances.Held()), req, o)
      ensures multiset(reports) == ReportsOf(req, o, venue)
    {
      var anchorOrder, matchOrder := BuyOrder(req.anchor, size, anchorPrice), BuyOrder(req.matched, size, matchPrice);
      var anchor, matched := Ask(anchorOrder, venue), Ask(matchOrder, venue);
      balances.DeductFill(req.anchor.platform, anchorPrice, req.matched.platform, matchPrice,
                          Min(anchor.filled, matched.filled));
      o := Traded(anchorPrice, matchPrice, size, anchorOrder, matchOrder, anchor, matched, None);
      trace, reports := [], [];
      if anchor.filled == matched.filled {
        if anchor.filled == 0.0 {
          trace := Stamp(req.cid, now, trace);
          trace := Release(req.cid, trace);
          return;
        }
        trace := Release(req.cid, trace);
        reports := [OrderSubmitted(req.cid, anchor.filled, matched.filled, 0.0)];
        return;
      }
      var hedge;
      hedge, reports := HedgeGap(req, anchorPrice, anchor, matchPrice, matched, venue, fillsFirst);
      o := o.(hedge := hedge);
      trace := Release(req.cid, trace);
    }

    /** The hedge of whichever leg filled more. */
    method HedgeGap(req: ExecutionRequest, anchorPrice: real, anchor: Fill, matchPrice: real, matched: Fill,
                    venue: Order -> Option<Fill>, fillsFirst: bool)
      returns (hedge: Option<Order>, reports: seq<Report>)
      requires anchor.filled != matched.filled
      ensures hedge == HedgeFor(req, anchorPrice, anchor.filled, matchPrice, matched.filled)
      ensures multiset(reports)
              == TradeReports(req, anchorPrice, matchPrice, anchor, matched, hedge.Some? && venue(hedge.value).Some?)
    {
      if anchor.filled > matched.filled {
        hedge, reports := Hedge(req.cid, anchor, matched, req.anchor, anchor.filled - matched.filled, anchorPrice,
                                venue, fillsFirst);
      } else {
        hedge, reports := Hedge(req.cid, anchor, matched, req.matched, matched.filled - anchor.filled, matchPrice,
                                venue, fillsFirst);
      }
    }

    /** Reports the fills while selling the excess, so that either may be told first; only a placed sell is reported. */
    method Hedge(c: Cid, anchor: Fill, matched: Fill, leg: ArbMinifiedInfo, excess: real, price: real,
                 venue: Order -> Option<Fill>, fillsFirst: bool)
      returns (hedge: Option<Order>, reports: seq<Report>)
      requires excess == Max(anchor.filled - matched.filled, matched.filled - anchor.filled)
      ensures hedge == HedgeOrder(leg, excess, price)
      ensures hedge.Some? && venue(hedge.value).Some? ==>
                multiset(reports) == multiset{FillsReport(c, anchor, matched), SaleReport(leg, excess, price)}
      ensures hedge.None? || venue(hedge.value).None? ==> multiset(reports) == multiset{FillsReport(c, anchor, matched)}
    {
      var fills := OrderSubmitted(c, anchor.filled, matched.filled, excess);
      reports := [fills];
      hedge := HedgeOrder(leg, excess, price);
      if hedge.Some? && venue(hedge.value).Some? {
        var sale := ExcessFillSubmitted(leg.platform, excess, Min(price + 0.02, 0.99));
        reports := if fillsFirst then [fills, sale] else [sale, fills];
      }
    }

    method Stamp(c: Cid, now: int, trace: seq<Access>) returns (more: seq<Access>)
      modifies shared`cooldown
      ensures shared.cooldown == old(shared.cooldown)[c := now]
      ensures more == trace + [StampCooldown(c)]
    {
      shared.cooldown := shared.cooldown[c := now];
      more := trace + [StampCooldown(c)];
    }

    method Release(c: Cid, trace: seq<Access>) returns (more: seq<Access>)
      modifies shared`inFlight
      ensures shared.inFlight == old(shared.inFlight) - {c}
      ensures more == trace + [ReleaseInFlight(c)]
    {
      shared.inFlight := shared.inFlight - {c};
      more := trace + [ReleaseInFlight(c)];
    }
  }
}
