/** The watching task (`comms` in `src/picker.rs`): owner of the indexes and only writer of the top-of-book. */
module PickerComms {
  import opened Wrappers
  import opened Models
  import opened OrderBooks
  import opened Quotes
  import opened WatchIndex
  import opened Feeds
  import opened Evaluation

  // ---- venue messages; a field that does not parse is absent ----

  datatype PriceChange = PriceChange(assetId: string, bestBid: Option<real>, bestAsk: Option<real>)

  datatype PolyMessage =
    | BestBidAsk(change: PriceChange, timestampMs: Option<int>)
    | PriceChanges(changes: seq<PriceChange>, timestampMs: Option<int>)
    | MarketResolved(assetIds: seq<string>)
    | OtherPoly

  datatype KalshiMessage =
    | TickerUpdate(ticker: string, yesBid: Option<real>, yesAsk: Option<real>,
                   yesBidSize: Option<real>, yesAskSize: Option<real>, timestampSecs: int)
    | Lifecycle(marketTicker: string, eventType: string, closeSecs: Option<int>)
    | OtherKalshi

  /** The stored update of a Polymarket change: sizes are never known. None when any number is missing. */
  function PolyUpdate(change: PriceChange, timestampMs: Option<int>): Option<Update> {
    if change.bestBid.None? || change.bestAsk.None? || timestampMs.None? then None
    else Some(Update(MakeMarketKey(change.assetId, Polymarket),
                     TopOfBook(change.bestBid.value, change.bestAsk.value, 0.0, 0.0, timestampMs.value)))
  }

  /** The updates of a batch of changes, in order. */
  function PolyUpdates(changes: seq<PriceChange>, timestampMs: Option<int>): seq<Update> {
    if changes == [] then []
    else
      PolyUpdates(changes[..|changes| - 1], timestampMs)
        + match PolyUpdate(changes[|changes| - 1], timestampMs)
          case None => []
          case Some(u) => [u]
  }

  /** The stored quote of the asset is the message's own. */
  predicate Stored(quotes: Quotes, change: PriceChange, timestampMs: Option<int>) {
    var m := "POLYMARKET:" + change.assetId;
    && m in quotes && change.bestBid == Some(quotes[m].bestBid) && change.bestAsk == Some(quotes[m].bestAsk)
    && timestampMs == Some(quotes[m].timestampMs) && quotes[m].bidSize == 0.0 && quotes[m].askSize == 0.0
  }

  /** All its numbers parse, and nothing as new is stored. */
  predicate ParsedAndNewer(quotes: Quotes, change: PriceChange, timestampMs: Option<int>) {
    var m := "POLYMARKET:" + change.assetId;
    && change.bestBid.Some? && change.bestAsk.Some? && timestampMs.Some?
    && (m in quotes ==> quotes[m].timestampMs < timestampMs.value)
  }

  /** A price message that parses and is newer is what is stored; any other stores nothing. */
  lemma PolyTickIsStored(quotes: Quotes, change: PriceChange, timestampMs: Option<int>)
    ensures var after := StoreIfAny(quotes, PolyUpdate(change, timestampMs));
            && (ParsedAndNewer(quotes, change, timestampMs) ==> Stored(after, change, timestampMs))
            && (!ParsedAndNewer(quotes, change, timestampMs) ==> after == quotes)
            && forall m :: m != "POLYMARKET:" + change.assetId ==>
                 (m in after <==> m in quotes) && (m in after ==> after[m] == quotes[m])
  {
    KeyText(change.assetId);
  }

  /** Either side of a Polymarket leg is then priced at the message's ask. */
  lemma PolyLegPaysTheAsk(quotes: Quotes, change: PriceChange, timestampMs: Option<int>, leg: ArbMinifiedInfo)
    requires ParsedAndNewer(quotes, change, timestampMs)
    requires leg.platform.Polymarket? && leg.tokenId == change.assetId && leg.Keyed()
    ensures var after := StoreIfAny(quotes, PolyUpdate(change, timestampMs));
            leg.marketKey in after && change.bestAsk == Some(NeededAskPrice(after[leg.marketKey], leg))
  {
    KeyText(change.assetId);
    PolyTickIsStored(quotes, change, timestampMs);
  }

  lemma EndsMarketIff(eventType: string)
    ensures EndsMarket(eventType) <==> eventType in {"determined", "settled", "deactivated"}
  {
  }

  predicate EndsMarket(eventType: string) {
    eventType == "determined" || eventType == "settled" || eventType == "deactivated"
  }

  /** A watch whose legs on `m` close at another time. */
  function WithCloseTime(w: ArbWatch, m: MarketKey, closeMs: int): ArbWatch {
    w.(anchor := if w.anchor.marketKey == m then w.anchor.(closeTimeMs := closeMs) else w.anchor,
       matched := if w.matched.marketKey == m then w.matched.(closeTimeMs := closeMs) else w.matched)
  }

  function Reclosed(records: Records, m: MarketKey, closeMs: int): Records {
    map c | c in records :: WithCloseTime(records[c], m, closeMs)
  }

  /** One leg re-dated: its close time if it is on the market, and nothing else of it. */
  predicate Redated(before: ArbMinifiedInfo, after: ArbMinifiedInfo, m: MarketKey, closeMs: int) {
    && after.marketKey == before.marketKey && after.platform == before.platform && after.marketId == before.marketId
    && after.tokenId == before.tokenId && after.leg == before.leg
    && after.closeTimeMs == if before.marketKey == m then closeMs else before.closeTimeMs
  }

  /** Re-dating sets the close time of exactly the legs on the market. */
  lemma ReclosedDates(records: Records, m: MarketKey, closeMs: int, c: Cid)
    requires c in records
    ensures var after := Reclosed(records, m, closeMs);
            && after.Keys == records.Keys && after[c].cid == records[c].cid
            && Redated(records[c].anchor, after[c].anchor, m, closeMs)
            && Redated(records[c].matched, after[c].matched, m, closeMs)
  {
  }

  /** The records with no leg on `m`. */
  function Without(records: Records, m: MarketKey): Records {
    map c | c in records && !records[c].HasLeg(m) :: records[c]
  }

  /** The markets of a list of Polymarket assets. */
  function MarketsOf(assetIds: seq<string>): set<MarketKey> {
    set a | a in assetIds :: MakeMarketKey(a, Polymarket)
  }

  function WithoutAny(records: Records, markets: set<MarketKey>): Records {
    map c | c in records && records[c].anchor.marketKey !in markets && records[c].matched.marketKey !in markets
      :: records[c]
  }

  lemma MarketsOfMore(assetIds: seq<string>, i: nat)
    requires i < |assetIds|
    ensures MarketsOf(assetIds[..i + 1]) == MarketsOf(assetIds[..i]) + {MakeMarketKey(assetIds[i], Polymarket)}
  {
    assert assetIds[..i + 1] == assetIds[..i] + [assetIds[i]];
  }

  lemma WithoutMore(records: Records, markets: set<MarketKey>, m: MarketKey)
    ensures Without(WithoutAny(records, markets), m) == WithoutAny(records, markets + {m})
  {
  }

  /** No Polymarket message or book gives the size of its best prices. */
  ghost predicate PolyUnsized(quotes: Quotes) {
    forall m :: m in quotes && !IsKalshiKey(m) ==> quotes[m].bidSize == 0.0 && quotes[m].askSize == 0.0
  }

  /** A Polymarket leg's request then asks for nothing: its size in the request is zero. */
  lemma PolyRequestsAreUnsized(quotes: Quotes, c: Cid, w: ArbWatch)
    requires PolyUnsized(quotes) && Quoted(quotes, w) && w.Keyed()
    ensures var r := RequestFor(quotes, c, w);
            && (w.anchor.platform.Polymarket? ==> r.anchorWsSize == 0.0)
            && (w.matched.platform.Polymarket? ==> r.matchWsSize == 0.0)
  {
    MarketKeyInjective(w.anchor.tokenId, w.anchor.platform, w.anchor.tokenId, w.anchor.platform);
    MarketKeyInjective(w.matched.tokenId, w.matched.platform, w.matched.tokenId, w.matched.platform);
  }

  /** The feeds of every leg of every record. */
  function WatchedFeeds(records: Records): set<Feed> {
    (set c | c in records :: FeedOf(records[c].anchor)) + (set c | c in records :: FeedOf(records[c].matched))
  }

  /** One more change of a batch, stored if it parses. */
  lemma StoreOneMore(quotes: Quotes, changes: seq<PriceChange>, i: nat, timestampMs: Option<int>)
    requires i < |changes|
    ensures StoreAll(quotes, PolyUpdates(changes[..i + 1], timestampMs))
            == StoreIfAny(StoreAll(quotes, PolyUpdates(changes[..i], timestampMs)), PolyUpdate(changes[i], timestampMs))
  {
    assert changes[..i + 1][..i] == changes[..i];
    var stored := PolyUpdates(changes[..i], timestampMs);
    var u := PolyUpdate(changes[i], timestampMs);
    if u.Some? {
      assert (stored + [u.value])[..|stored|] == stored;
    } else {
      assert stored + [] == stored;
    }
  }

  lemma UnwatchedMarket(registry: Registry, records: Records, m: MarketKey)
    requires DualIndex(registry, records) && m !in registry
    ensures forall c :: c in records ==> !records[c].HasLeg(m)
    ensures forall closeMs :: Reclosed(records, m, closeMs) == records
  {
    forall c | c in records ensures !records[c].HasLeg(m) {
      assert Indexed(registry, m, c) <==> Watches(records, c, m);
    }
  }

  /** A market out of the registry has no watched feed: keys and feeds name the same thing. */
  lemma UnwatchedFeed(registry: Registry, records: Records, leg: ArbMinifiedInfo)
    requires DualIndex(registry, records) && leg.Keyed()
    requires forall c :: c in records ==> records[c].Keyed()
    ensures leg.marketKey !in registry ==> FeedOf(leg) !in WatchedFeeds(records)
  {
    if FeedOf(leg) in WatchedFeeds(records) {
      var c :| c in records && (FeedOf(records[c].anchor) == FeedOf(leg) || FeedOf(records[c].matched) == FeedOf(leg));
      assert records[c].HasLeg(leg.marketKey);
      assert Indexed(registry, leg.marketKey, c) <==> Watches(records, c, leg.marketKey);
    }
  }

  /** The feeds of a removed watch whose markets nobody watches any more, each once. */
  function EvictedFeeds(w: ArbWatch, gone: set<MarketKey>): multiset<Feed> {
    (if w.anchor.marketKey in gone then multiset{FeedOf(w.anchor)} else multiset{})
      + if w.matched.marketKey in gone && w.matched.marketKey != w.anchor.marketKey
        then multiset{FeedOf(w.matched)} else multiset{}
  }

  lemma DropEvicts(registry: Registry, w: ArbWatch, c: Cid)
    ensures var one := DropWatcher(registry, w.anchor.marketKey, c);
            var two := DropWatcher(one, w.matched.marketKey, c);
            && two.Keys <= one.Keys <= registry.Keys
            && EvictedFeeds(w, registry.Keys - two.Keys)
               == (if one.Keys == registry.Keys then multiset{} else multiset{FeedOf(w.anchor)})
                  + if two.Keys == one.Keys then multiset{} else multiset{FeedOf(w.matched)}
  {
    var one := DropWatcher(registry, w.anchor.marketKey, c);
    var two := DropWatcher(one, w.matched.marketKey, c);
    DropKeys(registry, w.anchor.marketKey, c);
    DropKeys(one, w.matched.marketKey, c);
  }

  lemma DropKeys(registry: Registry, m: MarketKey, c: Cid)
    ensures var after := DropWatcher(registry, m, c);
            && after.Keys == (if m in registry && registry[m] <= {c} then registry.Keys - {m} else registry.Keys)
            && (m in after && m in registry ==> !(after[m] <= {c}))
  {
    if m in registry {
      assert registry[m] <= {c} <==> registry[m] - {c} == {};
      if x :| x in registry[m] && x != c {
        assert x in DropWatcher(registry, m, c)[m];
      }
    }
  }

  lemma RemovalKeepsSecure(before: set<MarketKey>, registry: Registry, priorRecords: Records, records: Records,
                           w: ArbWatch, subscribed: set<Feed>, pending: multiset<Feed>)
    requires DualIndex(registry, records) && w.Keyed()
    requires forall c :: c in records ==> c in priorRecords && records[c] == priorRecords[c] && records[c].Keyed()
    ensures Secure(subscribed, pending, WatchedFeeds(priorRecords)) ==>
              Secure(subscribed, pending + EvictedFeeds(w, before - registry.Keys), WatchedFeeds(records))
  {
    UnwatchedFeed(registry, records, w.anchor);
    UnwatchedFeed(registry, records, w.matched);
    forall f | f in WatchedFeeds(records)
      ensures f in WatchedFeeds(priorRecords) && f !in EvictedFeeds(w, before - registry.Keys)
    {
      var c :| c in records && (f == FeedOf(records[c].anchor) || f == FeedOf(records[c].matched));
      assert c in priorRecords;
    }
  }

  lemma GoneTwice(records: Records, done: set<Cid>, c: Cid)
    ensures (records - done) - {c} == records - (done + {c})
  {
  }

  /** Losing prices in two steps. */
  lemma LoseKeysTwice(quotes: Quotes, first: set<MarketKey>, second: set<MarketKey>, third: set<MarketKey>)
    requires third <= second <= first
    ensures (quotes - (first - second)) - (second - third) == quotes - (first - third)
  {
  }

  lemma ReclosedKeepsIndex(registry: Registry, records: Records, m: MarketKey, closeMs: int)
    requires DualIndex(registry, records)
    ensures DualIndex(registry, Reclosed(records, m, closeMs))
    ensures WatchedFeeds(Reclosed(records, m, closeMs)) == WatchedFeeds(records)
  {
    var after := Reclosed(records, m, closeMs);
    forall k, c ensures Indexed(registry, k, c) <==> Watches(after, c, k) {
      assert Indexed(registry, k, c) <==> Watches(records, c, k);
    }
    forall f ensures f in WatchedFeeds(after) <==> f in WatchedFeeds(records) {
      if f in WatchedFeeds(records) {
        var c :| c in records && (f == FeedOf(records[c].anchor) || f == FeedOf(records[c].matched));
        assert f == FeedOf(after[c].anchor) || f == FeedOf(after[c].matched);
      }
    }
  }

  /**
   Registering under an id keeps the indexes in step and the records named exactly when the id is that of the tokens.
   */
  lemma RegisterKeepsValidIff(naming: Naming, registry: Registry, records: Records, w: ArbWatch)
    requires naming.Injective() && DualIndex(registry, records) && AllNamed(naming, records) && w.Keyed()
    ensures DualIndex(Register(registry, w), records[w.cid := w]) && AllNamed(naming, records[w.cid := w]) <==>
            naming.NamesWatch(w)
  {
    var after := records[w.cid := w];
    assert after[w.cid] == w;
    if naming.NamesWatch(w) {
      NamedKeepsLegs(naming, records, w);
      RegisterKeepsIndexIff(registry, records, w);
      forall c | c in after ensures after[c].cid == c && after[c].Keyed() && naming.NamesWatch(after[c]) {
      }
    }
  }

  lemma ReclosedKeepsNames(naming: Naming, records: Records, m: MarketKey, closeMs: int)
    requires AllNamed(naming, records)
    ensures AllNamed(naming, Reclosed(records, m, closeMs))
  {
  }

  /** Re-dating the indexed ids is re-dating every record. */
  lemma IndexedAreReclosed(registry: Registry, before: Records, after: Records, m: MarketKey, closeMs: int)
    requires DualIndex(registry, before) && m in registry && after.Keys == before.Keys
    requires forall c :: c in after ==>
             after[c] == if c in registry[m] then WithCloseTime(before[c], m, closeMs) else before[c]
    ensures after == Reclosed(before, m, closeMs)
  {
    forall c | c in after ensures after[c] == WithCloseTime(before[c], m, closeMs) {
      assert Indexed(registry, m, c) <==> Watches(before, c, m);
    }
  }

  lemma WatchedAfterRegister(records: Records, w: ArbWatch)
    requires w.Keyed() && (forall c :: c in records ==> records[c].Keyed())
    ensures KeepsLegs(records, w) ==>
              WatchedFeeds(records[w.cid := w]) == WatchedFeeds(records) + {FeedOf(w.anchor), FeedOf(w.matched)}
  {
    var after := records[w.cid := w];
    if KeepsLegs(records, w) {
      if w.cid in records {
        var prior := records[w.cid];
        SameFeed(prior.anchor, w.anchor);
        SameFeed(prior.anchor, w.matched);
        SameFeed(prior.matched, w.anchor);
        SameFeed(prior.matched, w.matched);
      }
      assert after[w.cid] == w;
      forall f
        ensures f in WatchedFeeds(after) <==> f in WatchedFeeds(records) + {FeedOf(w.anchor), FeedOf(w.matched)}
      {
        if f in WatchedFeeds(records) {
          var c :| c in records && (f == FeedOf(records[c].anchor) || f == FeedOf(records[c].matched));
          assert c in after;
        }
      }
    }
  }

  lemma SameFeed(a: ArbMinifiedInfo, b: ArbMinifiedInfo)
    requires a.Keyed() && b.Keyed()
    ensures a.marketKey == b.marketKey <==> FeedOf(a) == FeedOf(b)
  {
    MarketKeyInjective(a.tokenId, a.platform, b.tokenId, b.platform);
  }

  // ---- what an incoming pair must carry before any subscription is tried ----

  predicate HasMarketInfo(e: Option<ArbEssentials>) {
    e.Some? && e.value.discovery.Some? && e.value.discovery.value.marketInfo.Some?
  }

  function MarketInfoOf(e: Option<ArbEssentials>): MarketInfo
    requires HasMarketInfo(e)
  {
    e.value.discovery.value.marketInfo.value
  }

  predicate AddressedLeg(config: Config, e: Option<ArbEssentials>) {
    && HasMarketInfo(e)
    && PlatformOf(MarketInfoOf(e).platform).Some?
    && Representable(config, MarketInfoOf(e).closeTimeMs)
  }

  predicate Addressed(config: Config, arb: Arb) {
    AddressedLeg(config, arb.anchor) && AddressedLeg(config, arb.matched)
  }

  predicate ClosesSoon(arb: Arb, nowMs: int)
    requires HasMarketInfo(arb.anchor) && HasMarketInfo(arb.matched)
  {
    || ClosesWithin(MarketInfoOf(arb.anchor).closeTimeMs, nowMs, ONE_HOUR_MS)
    || ClosesWithin(MarketInfoOf(arb.matched).closeTimeMs, nowMs, ONE_HOUR_MS)
  }

  /** The feed a leg subscribes to, named before the leg is converted. */
  function TargetOf(e: Option<ArbEssentials>): Feed
    requires HasMarketInfo(e) && PlatformOf(MarketInfoOf(e).platform).Some?
  {
    Feed(PlatformOf(MarketInfoOf(e).platform).value, e.value.tokenId)
  }

  /** The market a leg of an incoming pair names, if all of the way to it is there. */
  function NamedMarket(e: Option<ArbEssentials>): Option<MarketInfo> {
    match e
    case Some(ArbEssentials(Some(Discovery(Some(info), _)), _)) => Some(info)
    case _ => None
  }

  /** A pair is addressed when both its markets are there, on a known venue and closing on a representable date. */
  lemma AddressedIff(config: Config, arb: Arb)
    ensures Addressed(config, arb) <==>
            && var a, m := NamedMarket(arb.anchor), NamedMarket(arb.matched);
            && a.Some? && m.Some? && 0 <= a.value.platform <= 1 && 0 <= m.value.platform <= 1
            && config.minDateMs <= a.value.closeTimeMs <= config.maxDateMs
            && config.minDateMs <= m.value.closeTimeMs <= config.maxDateMs
  {
  }

  /** It closes soon when either market closes in the coming hour; a close already past is not soon. */
  lemma ClosesSoonIff(arb: Arb, nowMs: int)
    requires HasMarketInfo(arb.anchor) && HasMarketInfo(arb.matched)
    ensures var a, m := NamedMarket(arb.anchor), NamedMarket(arb.matched);
            && a.Some? && m.Some?
            && (ClosesSoon(arb, nowMs) <==>
                  || nowMs < a.value.closeTimeMs <= nowMs + 3_600_000
                  || nowMs < m.value.closeTimeMs <= nowMs + 3_600_000)
  {
  }

  /** The subscriptions once both legs were offered. */
  function Offer(subscribed: set<Feed>, arb: Arb, anchorAccepted: bool, matchAccepted: bool): set<Feed>
    requires HasMarketInfo(arb.anchor) && PlatformOf(MarketInfoOf(arb.anchor).platform).Some?
    requires HasMarketInfo(arb.matched) && PlatformOf(MarketInfoOf(arb.matched).platform).Some?
  {
    Add(Add(subscribed, TargetOf(arb.anchor), anchorAccepted), TargetOf(arb.matched), matchAccepted)
  }

  /** Each leg's subscription succeeded, or was there already. */
  predicate BothTaken(subscribed: set<Feed>, arb: Arb, anchorAccepted: bool, matchAccepted: bool)
    requires HasMarketInfo(arb.anchor) && PlatformOf(MarketInfoOf(arb.anchor).platform).Some?
    requires HasMarketInfo(arb.matched) && PlatformOf(MarketInfoOf(arb.matched).platform).Some?
  {
    && (TargetOf(arb.anchor) in subscribed || anchorAccepted)
    && (TargetOf(arb.matched) in subscribed + {TargetOf(arb.anchor)} || matchAccepted)
  }

  /** What find_arb came to. */
  datatype Found = Malformed | ClosingSoon | HalfSubscribed | NotConverted | Registered

  /**
   The effect of one tick on what the tasks share: if it is newer than what is stored, each indexed id is evaluated
   once.
   */
  ghost predicate Ticked(config: Config, registry: Registry, records: Records, quotes: Quotes, before: Desk,
                         after: Desk, u: Update, clock: Cid -> Clock) {
    if Fresh(quotes, u.key, u.tob)
    then Dispatched(config, records, Store(quotes, u), before, after,
                    if u.key in registry then registry[u.key] else {}, clock)
    else after == before
  }

  /** The tick of a Kalshi message; none when a price does not parse. */
  function KalshiUpdate(msg: KalshiMessage): Option<Update>
    requires msg.TickerUpdate?
  {
    if msg.yesBid.None? || msg.yesAsk.None? then None
    else Some(Update(MakeMarketKey(msg.ticker, Kalshi),
                     TopOfBook(msg.yesBid.value, msg.yesAsk.value, msg.yesBidSize.GetOr(0.0), msg.yesAskSize.GetOr(0.0),
                               msg.timestampSecs * 1000)))
  }

  /** The tick of a leg's seed; none when there is no book or no price in it. */
  function SeedUpdate(leg: ArbMinifiedInfo, book: Option<VenueBook>, nowMs: int): Option<Update> {
    if book.None? || Seed(book.value, nowMs).None? then None
    else Some(Update(leg.marketKey, Seed(book.value, nowMs).value))
  }

  function StoreIfAny(quotes: Quotes, u: Option<Update>): Quotes {
    match u
    case None => quotes
    case Some(u) => Store(quotes, u)
  }

  ghost predicate TickedIfAny(config: Config, registry: Registry, records: Records, quotes: Quotes, before: Desk,
                              after: Desk, u: Option<Update>, clock: Cid -> Clock) {
    match u
    case None => after == before
    case Some(u) => Ticked(config, registry, records, quotes, before, after, u, clock)
  }

  /** The seeds of both legs tick, the anchor's first. */
  ghost predicate SeedsTicked(config: Config, registry: Registry, records: Records, quotes: Quotes, before: Desk,
                              after: Desk,
                              anchorSeed: Option<Update>, matchSeed: Option<Update>, clock: (nat, Cid) -> Clock) {
    exists middle ::
      && TickedIfAny(config, registry, records, quotes, before, middle, anchorSeed, At(clock, 0))
      && TickedIfAny(config, registry, records, StoreIfAny(quotes, anchorSeed), middle, after, matchSeed, At(clock, 1))
  }

  /** The clock readings of the ids evaluated for the `i`-th tick of a call. */
  function At(clock: (nat, Cid) -> Clock, i: nat): Cid -> Clock {
    (c: Cid) => clock(i, c)
  }

  /** A batch of price changes ticks one after the other. */
  ghost predicate TickedInTurn(config: Config, registry: Registry, records: Records, quotes: Quotes, before: Desk,
                               after: Desk,
                               changes: seq<PriceChange>, timestampMs: Option<int>, clock: (nat, Cid) -> Clock)
    decreases |changes|
  {
    if changes == [] then after == before
    else
      var n := |changes| - 1;
      exists middle ::
        && TickedInTurn(config, registry, records, quotes, before, middle, changes[..n], timestampMs, clock)
        && TickedIfAny(config, registry, records, StoreAll(quotes, PolyUpdates(changes[..n], timestampMs)),
                       middle, after, PolyUpdate(changes[n], timestampMs), At(clock, n))
  }

  lemma TickedOneMore(config: Config, registry: Registry, records: Records, quotes: Quotes, before: Desk, middle: Desk,
                      after: Desk,
                      changes: seq<PriceChange>, i: nat, timestampMs: Option<int>, clock: (nat, Cid) -> Clock)
    requires i < |changes| && TickedInTurn(config, registry, records, quotes, before, middle, changes[..i], timestampMs,
                                           clock)
    requires TickedIfAny(config, registry, records, StoreAll(quotes, PolyUpdates(changes[..i], timestampMs)),
                         middle, after, PolyUpdate(changes[i], timestampMs), At(clock, i))
    ensures TickedInTurn(config, registry, records, quotes, before, after, changes[..i + 1], timestampMs, clock)
  {
    assert changes[..i + 1][..i] == changes[..i] && changes[..i + 1][i] == changes[i];
  }

  /** State that both tasks reach through locks and the request queue. */
  class Shared {
    var topOfBook: Quotes
    var inFlight: set<Cid>
    var cooldown: map<Cid, int>
    var queue: seq<ExecutionRequest>
    var open: bool

    constructor ()
      ensures topOfBook == map[] && Snapshot() == Desk({}, map[], [], true)
    {
      topOfBook, inFlight, cooldown, queue, open := map[], {}, map[], [], true;
    }

    function Snapshot(): Desk
      reads this
    {
      Desk(inFlight, cooldown, queue, open)
    }
  }

  class PickerComms {
    var registry: Registry
    var records: Records
    /** Ids whose deletion was announced to the server. */
    var outbox: seq<Cid>
    const shared: Shared
    const feeds: FeedsClient
    const config: Config
    const naming: Naming

    constructor (shared: Shared, feeds: FeedsClient, config: Config, naming: Naming)
      requires shared.topOfBook == map[] && naming.Injective()
      ensures Valid() && Live() && registry == map[] && records == map[] && outbox == []
      ensures this.shared == shared && this.feeds == feeds && this.config == config && this.naming == naming
    {
      this.shared, this.feeds, this.config, this.naming := shared, feeds, config, naming;
      registry, records, outbox := map[], map[], [];
    }

    /**
     The indexes are in step, every record is under the id and the keys of its own tokens, Kalshi prices are
     watched, and Polymarket prices carry no size.
     */
    ghost predicate Valid()
      reads this, shared
    {
      && DualIndex(registry, records)
      && naming.Injective() && AllNamed(naming, records)
      && (forall m :: m in shared.topOfBook && IsKalshiKey(m) ==> m in registry)
      && PolyUnsized(shared.topOfBook)
    }

    /** Every watched feed is subscribed and no removal of it is pending. */
    ghost predicate Live()
      reads this, feeds
    {
      Secure(feeds.subscribed, feeds.pending, WatchedFeeds(records))
    }

    // ---- evaluation ----

    method EvaluateArb(c: Cid, clock: Clock)
      modifies shared
      ensures shared.topOfBook == old(shared.topOfBook)
      ensures Evaluated(config, records, shared.topOfBook, old(shared.Snapshot()), shared.Snapshot(), c, clock)
    {
      if c in shared.inFlight {
        return;
      }
      if c in shared.cooldown {
        if Elapsed(clock.mono, shared.cooldown[c]) < config.cooldown {
          return;
        }
        shared.cooldown := shared.cooldown - {c};
      }
      if c !in records {
        return;
      }
      var w := records[c];
      if TooCloseToExpiry(config, w, clock.utcMs) {
        return;
      }
      if w.anchor.marketKey in shared.topOfBook && w.matched.marketKey in shared.topOfBook {
        var a, m := shared.topOfBook[w.anchor.marketKey], shared.topOfBook[w.matched.marketKey];
        var anchorAsk, matchAsk := NeededAskPrice(a, w.anchor), NeededAskPrice(m, w.matched);
        var total := anchorAsk + matchAsk;
        if total > 0.0 && total < 0.95 {
          if shared.open && |shared.queue| < config.capacity {
            shared.queue := shared.queue + [ExecutionRequest(c, w.anchor, w.matched, anchorAsk, matchAsk,
                                                             NeededAskSize(a, w.anchor), NeededAskSize(m, w.matched))];
            shared.inFlight := shared.inFlight + {c};
          }
        }
      }
    }

    /** A tick: stored if newer, and then every id indexed under the market is evaluated, in any order. */
    method OnPriceUpdate(m: MarketKey, tob: TopOfBook, clock: Cid -> Clock)
      modifies shared
      ensures shared.topOfBook == Store(old(shared.topOfBook), Update(m, tob))
      ensures Ticked(config, registry, records, old(shared.topOfBook), old(shared.Snapshot()), shared.Snapshot(),
                     Update(m, tob), clock)
    {
      if m in shared.topOfBook && tob.timestampMs <= shared.topOfBook[m].timestampMs {
        return;
      }
      shared.topOfBook := shared.topOfBook[m := tob];
      ghost var quotes, before := shared.topOfBook, shared.Snapshot();
      if m in registry {
        var todo := registry[m];
        assert EligibleAmong(config, records, quotes, before, {}, clock) == {} == Ids([]);
        while todo != {}
          invariant todo <= registry[m]
          invariant shared.topOfBook == quotes
          invariant Dispatched(config, records, quotes, before, shared.Snapshot(), registry[m] - todo, clock)
          decreases todo
        {
          var c :| c in todo;
          ghost var middle := shared.Snapshot();
          EvaluateArb(c, clock(c));
          DispatchOneMore(config, records, quotes, before, middle, shared.Snapshot(), registry[m] - todo, c, clock);
          assert registry[m] - (todo - {c}) == (registry[m] - todo) + {c};
          todo := todo - {c};
        }
        assert registry[m] - todo == registry[m];
      } else {
        assert EligibleAmong(config, records, quotes, before, {}, clock) == {} == Ids([]);
      }
    }

    // ---- the indexes ----

    /** Registers without cleaning up what the id watched before: a watch under the id of its own tokens needs none. */
    method RegisterArb(w: ArbWatch)
      requires Valid() && w.Keyed()
      modifies this`registry, this`records
      ensures registry == Register(old(registry), w) && records == old(records)[w.cid := w]
      ensures Valid() <==> naming.NamesWatch(w)
    {
      RegisterKeepsValidIff(naming, registry, records, w);
      var a, m := w.anchor.marketKey, w.matched.marketKey;
      registry := registry[a := (if a in registry then registry[a] else {}) + {w.cid}];
      registry := registry[m := (if m in registry then registry[m] else {}) + {w.cid}];
      records := records[w.cid := w];
    }

    /** Removes an id from one leg's watchers; a market left with none loses its entry, its price and its feed. */
    method DropLeg(leg: ArbMinifiedInfo, c: Cid)
      modifies this`registry, shared`topOfBook, feeds`pending
      ensures registry == DropWatcher(old(registry), leg.marketKey, c)
      ensures shared.topOfBook == old(shared.topOfBook) - (old(registry).Keys - registry.Keys)
      ensures feeds.pending ==
              old(feeds.pending) + if registry.Keys == old(registry).Keys then multiset{} else multiset{FeedOf(leg)}
    {
      var m := leg.marketKey;
      if m in registry {
        var rest := registry[m] - {c};
        if rest == {} {
          registry := registry - {m};
          shared.topOfBook := shared.topOfBook - {m};
          feeds.SpawnRemoval(FeedOf(leg));
        } else {
          registry := registry[m := rest];
        }
      }
    }

    method DropLegs(w: ArbWatch, c: Cid)
      modifies this`registry, shared`topOfBook, feeds`pending
      ensures registry == DropWatcher(DropWatcher(old(registry), w.anchor.marketKey, c), w.matched.marketKey, c)
      ensures shared.topOfBook == old(shared.topOfBook) - (old(registry).Keys - registry.Keys)
      ensures feeds.pending == old(feeds.pending) + EvictedFeeds(w, old(registry).Keys - registry.Keys)
    {
      DropEvicts(registry, w, c);
      DropLeg(w.anchor, c);
      LoseKeysTwice(old(shared.topOfBook), old(registry).Keys, registry.Keys,
                    DropWatcher(registry, w.matched.marketKey, c).Keys);
      DropLeg(w.matched, c);
    }

    /** Removes one id from both indexes; markets nobody watches any more lose their price and their feed. */
    method UnregisterArb(c: Cid)
      requires Valid()
      modifies this`registry, this`records, shared`topOfBook, feeds`pending
      ensures Valid()
      ensures records == old(records) - {c} && Erased(old(registry), registry, {c})
      ensures shared.topOfBook == old(shared.topOfBook) - (old(registry).Keys - registry.Keys)
      ensures feeds.pending == old(feeds.pending) +
              if c in old(records)
              then EvictedFeeds(old(records)[c], old(registry).Keys - registry.Keys) else multiset{}
      ensures old(Live()) ==> Live()
    {
      if c !in records {
        forall m | m in registry ensures c !in registry[m] {
          assert Indexed(registry, m, c) <==> Watches(records, c, m);
        }
        return;
      }
      var w := records[c];
      records := records - {c};
      DropLegs(w, c);
      DropKeepsIndex(old(registry), old(records), c);
      RemovalKeepsSecure(old(registry).Keys, registry, old(records), records, w, feeds.subscribed, old(feeds.pending));
    }

    method UnregisterAll(ids: set<Cid>)
      requires Valid()
      modifies this`registry, this`records, shared`topOfBook, feeds`pending
      ensures Valid()
      ensures records == old(records) - ids && Erased(old(registry), registry, ids)
      ensures shared.topOfBook == old(shared.topOfBook) - (old(registry).Keys - registry.Keys)
      ensures old(Live()) ==> Live()
    {
      var todo := ids;
      ghost var done: set<Cid> := {};
      while todo != {}
        invariant todo + done == ids && Valid()
        invariant records == old(records) - done && Erased(old(registry), registry, done)
        invariant shared.topOfBook == old(shared.topOfBook) - (old(registry).Keys - registry.Keys)
        invariant old(Live()) ==> Live()
        decreases todo
      {
        var c :| c in todo;
        ghost var middle := registry;
        UnregisterArb(c);
        LoseKeysTwice(old(shared.topOfBook), old(registry).Keys, middle.Keys, registry.Keys);
        ErasedTwice(old(registry), middle, registry, done, {c});
        GoneTwice(old(records), done, c);
        todo, done := todo - {c}, done + {c};
      }
      assert done == ids;
    }

    /** Every id watching a market is removed: the market is gone from both indexes and has no price. */
    method EvictMarket(m: MarketKey)
      requires Valid()
      modifies this`registry, this`records, shared`topOfBook, feeds`pending
      ensures Valid()
      ensures records == Without(old(records), m)
      ensures registry.Keys <= old(registry).Keys - {m}
      ensures forall k :: k in registry ==>
              registry[k] == old(registry)[k] - if m in old(registry) then old(registry)[m] else {}
      ensures shared.topOfBook == old(shared.topOfBook) - (old(registry).Keys - registry.Keys)
      ensures old(Live()) ==> Live()
    {
      if m in registry {
        UnregisterAll(registry[m]);
        ErasedMarketIsGone(old(registry), old(records), registry, m);
      } else {
        UnwatchedMarket(registry, records, m);
      }
    }

    method DeleteArb(c: Cid)
      requires Valid()
      modifies this`registry, this`records, this`outbox, shared`topOfBook, feeds`pending
      ensures Valid()
      ensures records == old(records) - {c} && outbox == old(outbox) + [c]
      ensures registry.Keys <= old(registry).Keys
      ensures shared.topOfBook == old(shared.topOfBook) - (old(registry).Keys - registry.Keys)
      ensures old(Live()) ==> Live()
    {
      UnregisterArb(c);
      outbox := outbox + [c];
    }

    // ---- venue messages ----

    method HandlePoly(msg: PolyMessage, clock: (nat, Cid) -> Clock)
      requires Valid()
      modifies this`registry, this`records, shared, feeds`pending
      ensures Valid()
      ensures old(Live()) ==> Live()
      ensures msg.BestBidAsk? ==>
                && registry == old(registry) && records == old(records)
                && shared.topOfBook == StoreIfAny(old(shared.topOfBook), PolyUpdate(msg.change, msg.timestampMs))
                && (ParsedAndNewer(old(shared.topOfBook), msg.change, msg.timestampMs) ==>
                      Stored(shared.topOfBook, msg.change, msg.timestampMs))
                && TickedIfAny(config, registry, records, old(shared.topOfBook), old(shared.Snapshot()),
                               shared.Snapshot(), PolyUpdate(msg.change, msg.timestampMs), At(clock, 0))
      ensures msg.PriceChanges? ==>
                && registry == old(registry) && records == old(records)
                && shared.topOfBook == StoreAll(old(shared.topOfBook), PolyUpdates(msg.changes, msg.timestampMs))
                && TickedInTurn(config, registry, records, old(shared.topOfBook), old(shared.Snapshot()),
                                shared.Snapshot(), msg.changes, msg.timestampMs, clock)
      ensures msg.MarketResolved? ==>
                && records == WithoutAny(old(records), MarketsOf(msg.assetIds))
                && registry.Keys <= old(registry).Keys - MarketsOf(msg.assetIds)
                && shared.topOfBook == old(shared.topOfBook) - (old(registry).Keys - registry.Keys)
                && shared.Snapshot() == old(shared.Snapshot())
      ensures msg.OtherPoly? ==>
                && registry == old(registry) && records == old(records)
                && shared.topOfBook == old(shared.topOfBook) && shared.Snapshot() == old(shared.Snapshot())
    {
      match msg {
        case BestBidAsk(change, timestampMs) =>
          PolyTickIsStored(shared.topOfBook, change, timestampMs);
          StorePolyChange(change, timestampMs, At(clock, 0));
        case PriceChanges(changes, timestampMs) =>
          StorePolyChanges(changes, timestampMs, clock);
        case MarketResolved(assetIds) =>
          EvictResolved(assetIds);
        case OtherPoly =>
      }
    }

    method StorePolyChanges(changes: seq<PriceChange>, timestampMs: Option<int>, clock: (nat, Cid) -> Clock)
      requires Valid()
      modifies shared
      ensures Valid()
      ensures shared.topOfBook == StoreAll(old(shared.topOfBook), PolyUpdates(changes, timestampMs))
      ensures TickedInTurn(config, registry, records, old(shared.topOfBook), old(shared.Snapshot()), shared.Snapshot(),
                           changes, timestampMs, clock)
    {
      for i := 0 to |changes|
        invariant Valid()
        invariant shared.topOfBook == StoreAll(old(shared.topOfBook), PolyUpdates(changes[..i], timestampMs))
        invariant TickedInTurn(config, registry, records, old(shared.topOfBook), old(shared.Snapshot()),
                               shared.Snapshot(), changes[..i], timestampMs, clock)
      {
        ghost var middle := shared.Snapshot();
        StorePolyChange(changes[i], timestampMs, At(clock, i));
        TickedOneMore(config, registry, records, old(shared.topOfBook), old(shared.Snapshot()), middle,
                      shared.Snapshot(), changes, i, timestampMs, clock);
        StoreOneMore(old(shared.topOfBook), changes, i, timestampMs);
      }
      assert changes[..|changes|] == changes;
    }

    method EvictResolved(assetIds: seq<string>)
      requires Valid()
      modifies this`registry, this`records, shared`topOfBook, feeds`pending
      ensures Valid()
      ensures records == WithoutAny(old(records), MarketsOf(assetIds))
      ensures registry.Keys <= old(registry).Keys - MarketsOf(assetIds)
      ensures shared.topOfBook == old(shared.topOfBook) - (old(registry).Keys - registry.Keys)
      ensures old(Live()) ==> Live()
    {
      for i := 0 to |assetIds|
        invariant Valid() && (old(Live()) ==> Live())
        invariant records == WithoutAny(old(records), MarketsOf(assetIds[..i]))
        invariant registry.Keys <= old(registry).Keys - MarketsOf(assetIds[..i])
        invariant shared.topOfBook == old(shared.topOfBook) - (old(registry).Keys - registry.Keys)
      {
        var m := MakeMarketKey(assetIds[i], Polymarket);
        ghost var middle := registry;
        EvictMarket(m);
        LoseKeysTwice(old(shared.topOfBook), old(registry).Keys, middle.Keys, registry.Keys);
        MarketsOfMore(assetIds, i);
        WithoutMore(old(records), MarketsOf(assetIds[..i]), m);
      }
      assert assetIds[..|assetIds|] == assetIds;
    }

    /** A Polymarket price is stored whether or not the market is watched. */
    method StorePolyChange(change: PriceChange, timestampMs: Option<int>, clock: Cid -> Clock)
      requires Valid()
      modifies shared
      ensures Valid()
      ensures shared.topOfBook == StoreIfAny(old(shared.topOfBook), PolyUpdate(change, timestampMs))
      ensures TickedIfAny(config, registry, records, old(shared.topOfBook), old(shared.Snapshot()), shared.Snapshot(),
                          PolyUpdate(change, timestampMs), clock)
    {
      match PolyUpdate(change, timestampMs) {
        case None =>
        case Some(u) =>
          MarketKeyInjective(change.assetId, Polymarket, change.assetId, Polymarket);
          OnPriceUpdate(u.key, u.tob, clock);
      }
    }

    method HandleKalshi(msg: KalshiMessage, clock: Cid -> Clock)
      requires Valid()
      modifies this`registry, this`records, shared, feeds`pending
      ensures Valid()
      ensures old(Live()) ==> Live()
      ensures msg.TickerUpdate? ==>
                var u := if MakeMarketKey(msg.ticker, Kalshi) in registry then KalshiUpdate(msg) else None;
                && registry == old(registry) && records == old(records)
                && shared.topOfBook == StoreIfAny(old(shared.topOfBook), u)
                && TickedIfAny(config, registry, records, old(shared.topOfBook), old(shared.Snapshot()),
                               shared.Snapshot(), u, clock)
      ensures msg.Lifecycle? && msg.eventType == "close_date_updated" ==>
                && registry == old(registry) && shared.topOfBook == old(shared.topOfBook)
                && records == if msg.closeSecs.None? then old(records)
                              else Reclosed(old(records), MakeMarketKey(msg.marketTicker, Kalshi),
                                            msg.closeSecs.value * 1000)
      ensures msg.Lifecycle? && EndsMarket(msg.eventType) ==>
                var m := MakeMarketKey(msg.marketTicker, Kalshi);
                && records == Without(old(records), m)
                && registry.Keys <= old(registry).Keys - {m} && m !in shared.topOfBook
                && shared.topOfBook == old(shared.topOfBook) - (old(registry).Keys - registry.Keys)
      ensures msg.OtherKalshi?
              || (msg.Lifecycle? && msg.eventType != "close_date_updated" && !EndsMarket(msg.eventType)) ==>
                registry == old(registry) && records == old(records) && shared.topOfBook == old(shared.topOfBook)
      ensures !msg.TickerUpdate? ==> shared.Snapshot() == old(shared.Snapshot())
    {
      match msg {
        case TickerUpdate(ticker, yesBid, yesAsk, yesBidSize, yesAskSize, timestampSecs) =>
          if MakeMarketKey(ticker, Kalshi) in registry && yesBid.Some? && yesAsk.Some? {
            OnPriceUpdate(MakeMarketKey(ticker, Kalshi),
                          TopOfBook(yesBid.value, yesAsk.value, yesBidSize.GetOr(0.0), yesAskSize.GetOr(0.0),
                                    timestampSecs * 1000),
                          clock);
          }
        case Lifecycle(marketTicker, eventType, closeSecs) =>
          var m := MakeMarketKey(marketTicker, Kalshi);
          MarketKeyInjective(marketTicker, Kalshi, marketTicker, Kalshi);
          if eventType == "close_date_updated" {
            Reclose(m, closeSecs);
          } else if EndsMarket(eventType) {
            EvictMarket(m);
          }
        case OtherKalshi =>
      }
    }

    /** Every id indexed under the market has the legs on it re-dated: the same as re-dating every record. */
    method Reclose(m: MarketKey, closeSecs: Option<int>)
      requires Valid()
      modifies this`records
      ensures Valid() && (old(Live()) ==> Live())
      ensures records == if closeSecs.None? then old(records) else Reclosed(old(records), m, closeSecs.value * 1000)
    {
      if m !in registry || closeSecs.None? {
        if closeSecs.Some? {
          UnwatchedMarket(registry, records, m);
        }
        return;
      }
      var closeMs := closeSecs.value * 1000;
      RecloseIds(registry[m], m, closeMs);
      IndexedAreReclosed(registry, old(records), records, m, closeMs);
      ReclosedKeepsIndex(registry, old(records), m, closeMs);
      ReclosedKeepsNames(naming, old(records), m, closeMs);
    }

    method RecloseIds(ids: set<Cid>, m: MarketKey, closeMs: int)
      modifies this`records
      ensures records.Keys == old(records).Keys
      ensures forall c :: c in records ==>
                records[c] == if c in ids then WithCloseTime(old(records)[c], m, closeMs) else old(records)[c]
    {
      var todo := ids;
      while todo != {}
        invariant todo <= ids
        invariant records.Keys == old(records).Keys
        invariant forall c :: c in records ==>
                    records[c] ==
                    if c in ids - todo then WithCloseTime(old(records)[c], m, closeMs) else old(records)[c]
        decreases todo
      {
        var c :| c in todo;
        if c in records {
          records := records[c := WithCloseTime(records[c], m, closeMs)];
        }
        todo := todo - {c};
      }
    }

    // ---- accepting a pair from the server ----

    method SeedTob(leg: ArbMinifiedInfo, book: Option<VenueBook>, nowMs: int, clock: Cid -> Clock)
      modifies shared
      ensures old(Valid()) && leg.marketKey in registry ==> Valid()
      ensures shared.topOfBook == StoreIfAny(old(shared.topOfBook), SeedUpdate(leg, book, nowMs))
      ensures TickedIfAny(config, registry, records, old(shared.topOfBook), old(shared.Snapshot()), shared.Snapshot(),
                          SeedUpdate(leg, book, nowMs), clock)
    {
      if book.Some? {
        var seed := Seed(book.value, nowMs);
        if seed.Some? {
          OnPriceUpdate(leg.marketKey, seed.value, clock);
        }
      }
    }

    method SeedLegs(w: ArbWatch, anchorNowMs: int, matchNowMs: int,
                    anchorBook: Option<VenueBook>, matchBook: Option<VenueBook>,
                    clock: (nat, Cid) -> Clock)
      modifies shared
      ensures old(Valid()) && w.anchor.marketKey in registry && w.matched.marketKey in registry ==> Valid()
      ensures shared.topOfBook ==
              StoreIfAny(StoreIfAny(old(shared.topOfBook), SeedUpdate(w.anchor, anchorBook, anchorNowMs)),
                         SeedUpdate(w.matched, matchBook, matchNowMs))
      ensures SeedsTicked(config, registry, records, old(shared.topOfBook), old(shared.Snapshot()), shared.Snapshot(),
                          SeedUpdate(w.anchor, anchorBook, anchorNowMs),
                          SeedUpdate(w.matched, matchBook, matchNowMs), clock)
    {
      SeedTob(w.anchor, anchorBook, anchorNowMs, At(clock, 0));
      SeedTob(w.matched, matchBook, matchNowMs, At(clock, 1));
    }

    /** Registers a pair whose legs are both subscribed and seeds both prices. */
    method WatchPair(w: ArbWatch, anchorNowMs: int, matchNowMs: int,
                    anchorBook: Option<VenueBook>, matchBook: Option<VenueBook>,
                     clock: (nat, Cid) -> Clock)
      requires Valid() && w.Keyed()
      requires {FeedOf(w.anchor), FeedOf(w.matched)} <= feeds.subscribed
      modifies this`registry, this`records, shared
      ensures registry == Register(old(registry), w) && records == old(records)[w.cid := w]
      ensures shared.topOfBook ==
              StoreIfAny(StoreIfAny(old(shared.topOfBook), SeedUpdate(w.anchor, anchorBook, anchorNowMs)),
                         SeedUpdate(w.matched, matchBook, matchNowMs))
      ensures SeedsTicked(config, registry, records, old(shared.topOfBook), old(shared.Snapshot()), shared.Snapshot(),
                          SeedUpdate(w.anchor, anchorBook, anchorNowMs),
                          SeedUpdate(w.matched, matchBook, matchNowMs), clock)
      ensures Valid() <==> naming.NamesWatch(w)
      ensures old(Live()) && naming.NamesWatch(w) ==>
                (Live() <==> FeedOf(w.anchor) !in feeds.pending && FeedOf(w.matched) !in feeds.pending)
    {
      if old(Live()) {
        WatchKeepsSecureIff(feeds.subscribed, feeds.pending, WatchedFeeds(records), FeedOf(w.anchor),
                            FeedOf(w.matched));
        assert Add(Add(feeds.subscribed, FeedOf(w.anchor), true), FeedOf(w.matched), true) == feeds.subscribed;
      }
      if naming.NamesWatch(w) {
        NamedKeepsLegs(naming, records, w);
      }
      WatchedAfterRegister(records, w);
      RegisterArb(w);
      SeedLegs(w, anchorNowMs, matchNowMs, anchorBook, matchBook, clock);
    }

    method SubscribeLegs(arb: Arb, anchorAccepted: bool, matchAccepted: bool) returns (both: bool)
      requires Addressed(config, arb)
      modifies feeds`subscribed
      ensures feeds.subscribed == Offer(old(feeds.subscribed), arb, anchorAccepted, matchAccepted)
      ensures both <==> BothTaken(old(feeds.subscribed), arb, anchorAccepted, matchAccepted)
      ensures both ==> {TargetOf(arb.anchor), TargetOf(arb.matched)} <= feeds.subscribed
      ensures old(feeds.subscribed) <= feeds.subscribed
    {
      var anchorOk := feeds.AddMarketTicker(TargetOf(arb.anchor), anchorAccepted);
      var matchOk := feeds.AddMarketTicker(TargetOf(arb.matched), matchAccepted);
      both := anchorOk && matchOk;
    }

    /**
     Subscribes both legs, converts, registers and seeds. The venues' answers are parameters: whether each
     subscription is accepted, and each leg's order book if it could be fetched. The clock is read for the guard and
     again for each seed. A pair under the id of its own tokens keeps the whole invariant, whatever the outcome.
     */
    method FindArb(arb: Arb, cid: Cid, nowMs: int, anchorNowMs: int, matchNowMs: int, anchorAccepted: bool,
                   matchAccepted: bool,
                   anchorBook: Option<VenueBook>, matchBook: Option<VenueBook>, clock: (nat, Cid) -> Clock)
      returns (r: Found)
      requires Valid()
      modifies this`registry, this`records, this`outbox, shared, feeds
      ensures r.Malformed? <==> !Addressed(config, arb)
      ensures r.ClosingSoon? <==> Addressed(config, arb) && ClosesSoon(arb, nowMs)
      ensures r.Malformed? || r.ClosingSoon? ==> feeds.subscribed == old(feeds.subscribed)
      ensures !r.Malformed? && !r.ClosingSoon? ==>
                && feeds.subscribed == Offer(old(feeds.subscribed), arb, anchorAccepted, matchAccepted)
                && feeds.pending == old(feeds.pending)
                && (r.HalfSubscribed? <==> !BothTaken(old(feeds.subscribed), arb, anchorAccepted, matchAccepted))
                && (r.NotConverted? ==> MinifyPair(cid, arb).Err?)
      ensures r.Registered? ==>
                && MinifyPair(cid, arb).Ok?
                && var w := MinifyPair(cid, arb).value;
                && registry == Register(old(registry), w) && records == old(records)[cid := w]
                && {FeedOf(w.anchor), FeedOf(w.matched)} <= feeds.subscribed
                && shared.topOfBook ==
                   StoreIfAny(StoreIfAny(old(shared.topOfBook), SeedUpdate(w.anchor, anchorBook, anchorNowMs)),
                              SeedUpdate(w.matched, matchBook, matchNowMs))
                && SeedsTicked(config, registry, records, old(shared.topOfBook), old(shared.Snapshot()),
                               shared.Snapshot(), SeedUpdate(w.anchor, anchorBook, anchorNowMs),
                               SeedUpdate(w.matched, matchBook, matchNowMs), clock)
                && (Valid() <==> naming.NamesWatch(w))
                && (old(Live()) && naming.NamesWatch(w) ==>
                      (Live() <==> FeedOf(w.anchor) !in feeds.pending && FeedOf(w.matched) !in feeds.pending))
      ensures r.ClosingSoon? ==>
                && records == old(records) - {cid} && outbox == old(outbox) + [cid]
                && registry.Keys <= old(registry).Keys
                && shared.topOfBook == old(shared.topOfBook) - (old(registry).Keys - registry.Keys)
      ensures !r.ClosingSoon? ==> outbox == old(outbox)
      ensures !r.Registered? && !r.ClosingSoon? ==>
                registry == old(registry) && records == old(records) && shared.topOfBook == old(shared.topOfBook)
      ensures (MinifyPair(cid, arb).Ok? ==> naming.NamesWatch(MinifyPair(cid, arb).value)) ==> Valid()
      ensures !r.Registered? ==> Valid() && shared.Snapshot() == old(shared.Snapshot()) && (old(Live()) ==> Live())
    {
      if !Addressed(config, arb) {
        return Malformed;
      }
      if ClosesSoon(arb, nowMs) {
        DeleteArb(cid);
        return ClosingSoon;
      }
      var both := SubscribeLegs(arb, anchorAccepted, matchAccepted);
      if !both {
        return HalfSubscribed;
      }
      var converted := MinifyPair(cid, arb);
      if converted.Err? {
        return NotConverted;
      }
      var w := converted.value;
      WatchPair(w, anchorNowMs, matchNowMs, anchorBook, matchBook, clock);
      r := Registered;
    }
  }
}
