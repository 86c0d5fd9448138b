/**
 Two routes from a venue's order book to the price a leg must pay: the HTTP seed of the top-of-book read
 through `needed_ask_price`, and the executor's HTTP metrics (`src/picker.rs`).
 */
module OrderBooks {
  import opened Wrappers
  import opened Models

  /** A resting level; a number that does not parse is absent. */
  datatype Level = Level(price: Option<real>, size: Option<real>)

  /** Kalshi lists bids for both outcomes, worst first; Polymarket lists bids and asks, best first. */
  datatype VenueBook =
    | KalshiBook(yes: Option<seq<Level>>, no: Option<seq<Level>>)
    | PolyBook(bids: seq<Level>, asks: seq<Level>, timestampMs: Option<int>)

  function Last(side: Option<seq<Level>>): Option<Level> {
    if side.None? || side.value == [] then None else Some(side.value[|side.value| - 1])
  }

  function First(side: seq<Level>): Option<Level> {
    if side == [] then None else Some(side[0])
  }

  function PriceOf(level: Option<Level>): Option<real> {
    if level.None? then None else level.value.price
  }

  // ---- route 1: seed, then read ----

  function Seed(book: VenueBook, nowMs: int): Option<TopOfBook> {
    match book
    case KalshiBook(yes, no) =>
      (match PriceOf(Last(no))
       case None => None
       case Some(noBid) =>
         Some(TopOfBook(PriceOf(Last(yes)).GetOr(0.0), 1.0 - noBid, 0.0, 0.0, nowMs)))
    case PolyBook(bids, asks, timestampMs) =>
      (match PriceOf(First(asks))
       case None => None
       case Some(ask) =>
         Some(TopOfBook(PriceOf(First(bids)).GetOr(0.0), ask, 0.0, 0.0, timestampMs.GetOr(nowMs))))
  }

  function NeededAskPrice(tob: TopOfBook, leg: ArbMinifiedInfo): real {
    match leg.platform
    case Kalshi => if leg.leg.Left? then tob.bestAsk else 1.0 - tob.bestBid
    case Polymarket => tob.bestAsk
  }

  function NeededAskSize(tob: TopOfBook, leg: ArbMinifiedInfo): real {
    match leg.platform
    case Kalshi => if leg.leg.Left? then tob.askSize else tob.bidSize
    case Polymarket => tob.askSize
  }

  // ---- route 2: the executor's metrics ----

  datatype Metrics = Metrics(price: real, size: real)

  function KalshiMetrics(bids: Option<seq<Level>>): Option<Metrics> {
    match Last(bids)
    case Some(Level(Some(price), Some(size))) => Some(Metrics(1.0 - price, size))
    case _ => None
  }

  function HttpMetrics(leg: ArbMinifiedInfo, book: VenueBook): Option<Metrics> {
    match book
    case KalshiBook(yes, no) => KalshiMetrics(if leg.leg.Left? then no else yes)
    case PolyBook(_, asks, _) =>
      (match First(asks)
       case Some(Level(Some(price), Some(size))) => Some(Metrics(price, size))
       case _ => None)
  }

  /** The best level of a side, by position: what the book itself shows, not how it is read. */
  predicate BestOf(side: seq<Level>, i: int, level: Level) {
    0 <= i < |side| && side[i] == level
  }

  /** Metrics are of a leg when they are what the leg's own opposing side of its own book gives. */
  predicate QuotesLeg(leg: ArbMinifiedInfo, book: VenueBook, m: Metrics) {
    match book
    case KalshiBook(yes, no) =>
      var bids := if leg.leg.Left? then no else yes;
      bids.Some? && BestOf(bids.value, |bids.value| - 1, Level(Some(1.0 - m.price), Some(m.size)))
    case PolyBook(_, asks, _) => BestOf(asks, 0, Level(Some(m.price), Some(m.size)))
  }

  /** The executor's metrics are always those of the leg. */
  lemma MetricsAreTheLegs(leg: ArbMinifiedInfo, book: VenueBook, m: Metrics)
    ensures HttpMetrics(leg, book) == Some(m) <==> QuotesLeg(leg, book, m)
  {
    if book.KalshiBook? {
      var bids := if leg.leg.Left? then book.no else book.yes;
      if bids.Some? && bids.value != [] && QuotesLeg(leg, book, m) {
        assert Last(bids) == Some(Level(Some(1.0 - m.price), Some(m.size)));
      }
    }
  }

  /** A seed shows the last resting bids of Kalshi, or the first of both sides of Polymarket; a missing bid is zero. */
  lemma SeedShowsTheBest(book: VenueBook, nowMs: int)
    requires Seed(book, nowMs).Some?
    ensures var s := Seed(book, nowMs).value;
            && s.bidSize == 0.0 && s.askSize == 0.0
            && (book.KalshiBook? ==>
                  && book.no.Some? && book.no.value != []
                  && book.no.value[|book.no.value| - 1].price == Some(1.0 - s.bestAsk)
                  && (book.yes.Some? && book.yes.value != [] && book.yes.value[|book.yes.value| - 1].price.Some?
                      ==> s.bestBid == book.yes.value[|book.yes.value| - 1].price.value)
                  && s.timestampMs == nowMs)
            && (book.PolyBook? ==>
                  && book.asks != [] && book.asks[0].price == Some(s.bestAsk)
                  && (book.bids != [] && book.bids[0].price.Some? ==> s.bestBid == book.bids[0].price.value)
                  && (book.bids == [] ==> s.bestBid == 0.0)
                  && s.timestampMs == if book.timestampMs.Some? then book.timestampMs.value else nowMs)
  {
  }

  /** The book a leg's venue answers with. */
  predicate BookFor(leg: ArbMinifiedInfo, book: VenueBook) {
    book.KalshiBook? <==> leg.platform.Kalshi?
  }

  /** The bids a Kalshi leg trades against: buying YES meets NO bids, buying NO meets YES bids. */
  function OpposingBids(leg: Leg, book: VenueBook): Option<seq<Level>>
    requires book.KalshiBook?
  {
    if leg.Left? then book.no else book.yes
  }

  /**
   Whenever both routes answer they give the same price, for any book. The seed answers when the NO side
   (Kalshi) or the ask side (Polymarket) has a readable best; the metrics when the leg's own opposing side has.
   */
  lemma SeedAgreesWithMetrics(leg: ArbMinifiedInfo, book: VenueBook, nowMs: int)
    requires BookFor(leg, book)
    ensures var seed, metrics := Seed(book, nowMs), HttpMetrics(leg, book);
            && (seed.Some? && metrics.Some? ==> NeededAskPrice(seed.value, leg) == metrics.value.price)
            && (seed.Some? && metrics.None? && leg.platform.Kalshi? && leg.leg.Right? && Last(book.yes).None?
                ==> NeededAskPrice(seed.value, leg) == 1.0)
    ensures book.KalshiBook? ==>
              && (Seed(book, nowMs).Some? <==> PriceOf(Last(book.no)).Some?)
              && var best := Last(OpposingBids(leg.leg, book));
                 HttpMetrics(leg, book).Some? <==> best.Some? && best.value.price.Some? && best.value.size.Some?
    ensures book.PolyBook? ==>
              && var best := First(book.asks);
                 && (Seed(book, nowMs).Some? <==> PriceOf(best).Some?)
                 && (HttpMetrics(leg, book).Some? <==> best.Some? && best.value.price.Some? && best.value.size.Some?)
  {
    if book.KalshiBook? {
      var best := Last(OpposingBids(leg.leg, book));
      assert PriceOf(best).Some? ==> best.Some?;
    }
  }

  /** A Kalshi tick that shows the best of both sides: the YES ask is what the best NO bid leaves of a dollar. */
  predicate Shows(tob: TopOfBook, yes: Level, no: Level) {
    && yes.price == Some(tob.bestBid) && yes.size == Some(tob.bidSize)
    && no.price == Some(1.0 - tob.bestAsk) && no.size == Some(tob.askSize)
  }

  /** Read off such a tick, price and size of either leg are those of the executor's metrics. */
  lemma TickAgreesWithMetrics(leg: ArbMinifiedInfo, tob: TopOfBook, yes: seq<Level>, no: seq<Level>)
    requires leg.platform.Kalshi? && yes != [] && no != []
    requires Shows(tob, yes[|yes| - 1], no[|no| - 1])
    ensures HttpMetrics(leg, KalshiBook(Some(yes), Some(no)))
            == Some(Metrics(NeededAskPrice(tob, leg), NeededAskSize(tob, leg)))
  {
    var best := if leg.leg.Left? then no[|no| - 1] else yes[|yes| - 1];
    assert best == Level(Some(1.0 - NeededAskPrice(tob, leg)), Some(NeededAskSize(tob, leg)));
  }

  /** A Polymarket tick that shows the best ask, read for either side, is the executor's price; it never has a size. */
  lemma PolyTickAgreesWithMetrics(leg: ArbMinifiedInfo, tob: TopOfBook, bids: seq<Level>, asks: seq<Level>,
                                  timestampMs: Option<int>)
    requires leg.platform.Polymarket? && asks != [] && asks[0].size.Some? && asks[0].price == Some(tob.bestAsk)
    ensures HttpMetrics(leg, PolyBook(bids, asks, timestampMs))
            == Some(Metrics(NeededAskPrice(tob, leg), asks[0].size.value))
    ensures NeededAskPrice(tob, leg) == tob.bestAsk && NeededAskSize(tob, leg) == tob.askSize
  {
  }

  predicate Readable(bids: seq<Level>) {
    forall i :: 0 <= i < |bids| ==> bids[i].price.Some? && bids[i].size.Some?
  }

  predicate Ascending(bids: seq<Level>)
    requires Readable(bids)
  {
    forall i, j :: 0 <= i < j < |bids| ==> bids[i].price.value <= bids[j].price.value
  }

  /** `price` is the cheapest way to take any of the resting opposing bids. */
  predicate CheapestAgainst(price: real, bids: seq<Level>)
    requires Readable(bids)
  {
    && (exists i :: 0 <= i < |bids| && price == 1.0 - bids[i].price.value)
    && (forall i :: 0 <= i < |bids| ==> price <= 1.0 - bids[i].price.value)
  }

  /** On an ascending book with both sides present, both routes find the minimum over the opposing bids. */
  lemma BothRoutesFindTheCheapest(leg: ArbMinifiedInfo, yes: seq<Level>, no: seq<Level>, nowMs: int)
    requires leg.platform.Kalshi? && yes != [] && no != []
    requires Readable(yes) && Readable(no) && Ascending(yes) && Ascending(no)
    ensures var book := KalshiBook(Some(yes), Some(no));
            var bids := if leg.leg.Left? then no else yes;
            && Seed(book, nowMs).Some? && HttpMetrics(leg, book).Some?
            && NeededAskPrice(Seed(book, nowMs).value, leg) == HttpMetrics(leg, book).value.price
            && CheapestAgainst(HttpMetrics(leg, book).value.price, bids)
  {
    var bids := if leg.leg.Left? then no else yes;
    var best := bids[|bids| - 1];
    assert best.price.Some? && best.size.Some?;
    assert yes[|yes| - 1].price.Some? && no[|no| - 1].price.Some?;
    assert HttpMetrics(leg, KalshiBook(Some(yes), Some(no))) == Some(Metrics(1.0 - best.price.value, best.size.value));
  }
}
