/** Domain types shared by every component, and the conversions that guard them (`src/models.rs`). */
module Models {
  import opened Wrappers

  datatype Platform = Polymarket | Kalshi

  datatype Leg = Left | Right

  type Cid = string

  /** `<PLATFORM>:<token or ticker>`, the key of the reverse index and of the top-of-book map. */
  type MarketKey = string

  function PlatformName(platform: Platform): string {
    match platform
    case Polymarket => "POLYMARKET"
    case Kalshi => "KALSHI"
  }

  function MakeMarketKey(assetId: string, platform: Platform): (key: MarketKey)
    ensures key != "" && (key[0] == 'K' <==> platform.Kalshi?)
  {
    PlatformName(platform) + ":" + assetId
  }

  /** Whether a key belongs to the Kalshi venue, read off the key alone. */
  predicate IsKalshiKey(key: MarketKey) {
    "KALSHI:" <= key
  }

  /** Two legs share a key only when they are the same token on the same venue. */
  lemma MarketKeyInjective(a: string, p: Platform, b: string, q: Platform)
    ensures MakeMarketKey(a, p) == MakeMarketKey(b, q) <==> a == b && p == q
    ensures IsKalshiKey(MakeMarketKey(a, p)) <==> p.Kalshi?
  {
    var k, l := MakeMarketKey(a, p), MakeMarketKey(b, q);
    assert k[|PlatformName(p)| + 1..] == a && l[|PlatformName(q)| + 1..] == b;
    assert p.Polymarket? ==> k[0] == 'P';
  }

  lemma KeyText(token: string)
    ensures MakeMarketKey(token, Kalshi) == "KALSHI:" + token
    ensures MakeMarketKey(token, Polymarket) == "POLYMARKET:" + token
  {
  }

  // ---- wire messages: every sub-message may be absent, every enum arrives as a number ----

  datatype MarketInfo = MarketInfo(marketId: string, platform: int, closeTimeMs: int)

  datatype Discovery = Discovery(marketInfo: Option<MarketInfo>, leg: int)

  datatype ArbEssentials = ArbEssentials(discovery: Option<Discovery>, tokenId: string)

  datatype Arb = Arb(anchor: Option<ArbEssentials>, matched: Option<ArbEssentials>)

  // ---- in-memory forms ----

  datatype ArbMinifiedInfo = ArbMinifiedInfo(
    marketKey: MarketKey, platform: Platform, marketId: string, tokenId: string, leg: Leg, closeTimeMs: int)
  {
    /** The key is the one derived from the leg's own token and venue. */
    predicate Keyed() {
      marketKey == MakeMarketKey(tokenId, platform)
    }
  }

  datatype ArbWatch = ArbWatch(cid: Cid, anchor: ArbMinifiedInfo, matched: ArbMinifiedInfo) {
    predicate HasLeg(key: MarketKey) {
      anchor.marketKey == key || matched.marketKey == key
    }

    predicate Keyed() {
      anchor.Keyed() && matched.Keyed()
    }
  }

  datatype TopOfBook = TopOfBook(bestBid: real, bestAsk: real, bidSize: real, askSize: real, timestampMs: int)

  datatype ExecutionRequest = ExecutionRequest(
    cid: Cid, anchor: ArbMinifiedInfo, matched: ArbMinifiedInfo,
    anchorWsPrice: real, matchWsPrice: real, anchorWsSize: real, matchWsSize: real)

  // ---- correlation ids ----

  /**
   How ids come from tokens, and which venue a token is of. A pair's id is a hash of its two tokens, not of their sides.
   */
  datatype Naming = Naming(id: (string, string) -> Cid, venue: string -> Platform) {
    predicate Names(c: Cid, anchorVenue: Platform, anchorToken: string, matchVenue: Platform, matchToken: string) {
      c == id(anchorToken, matchToken) && anchorVenue == venue(anchorToken) && matchVenue == venue(matchToken)
    }

    predicate NamesWatch(w: ArbWatch) {
      Names(w.cid, w.anchor.platform, w.anchor.tokenId, w.matched.platform, w.matched.tokenId)
    }

    /** No two pairs of tokens share an id. */
    ghost predicate Injective() {
      forall a, b, x, y :: id(a, b) == id(x, y) ==> a == x && b == y
    }
  }

  // ---- conversions ----

  datatype ConversionError =
    | MissingLeg | MissingDiscovery | MissingMarketInfo
    | EmptyMarketId | ZeroCloseTime | EmptyTokenId | InvalidPlatform | InvalidLeg

  function PlatformOf(n: int): Option<Platform> {
    if n == 0 then Some(Polymarket) else if n == 1 then Some(Kalshi) else None
  }

  function LegOf(n: int): Option<Leg> {
    if n == 0 then Some(Left) else if n == 1 then Some(Right) else None
  }

  /** The numbers the two enums travel as. */
  lemma WireNumbers(n: int)
    ensures PlatformOf(0) == Some(Polymarket) && PlatformOf(1) == Some(Kalshi)
    ensures LegOf(0) == Some(Left) && LegOf(1) == Some(Right)
    ensures n < 0 || 1 < n ==> PlatformOf(n).None? && LegOf(n).None?
  {
  }

  /** A leg is usable when all its parts are present and meaningful. */
  predicate UsableLeg(e: ArbEssentials) {
    && e.tokenId != ""
    && e.discovery.Some?
    && e.discovery.value.marketInfo.Some?
    && LegOf(e.discovery.value.leg).Some?
    && var m := e.discovery.value.marketInfo.value;
       m.marketId != "" && m.closeTimeMs != 0 && PlatformOf(m.platform).Some?
  }

  /** The part an error names is absent or meaningless. */
  predicate Lacks(e: ArbEssentials, error: ConversionError) {
    match error
    case MissingLeg => false
    case MissingDiscovery => e.discovery.None?
    case EmptyTokenId => e.tokenId == ""
    case MissingMarketInfo => e.discovery.Some? && e.discovery.value.marketInfo.None?
    case InvalidLeg => e.discovery.Some? && LegOf(e.discovery.value.leg).None?
    case _ =>
      && e.discovery.Some? && e.discovery.value.marketInfo.Some?
      && var m := e.discovery.value.marketInfo.value;
         match error
         case EmptyMarketId => m.marketId == ""
         case ZeroCloseTime => m.closeTimeMs == 0
         case _ => PlatformOf(m.platform).None?
  }

  /** The in-memory leg shows what the message carried, under its own key. */
  predicate Carries(info: ArbMinifiedInfo, e: ArbEssentials)
    requires UsableLeg(e)
  {
    var m := e.discovery.value.marketInfo.value;
    && info.Keyed() && info.tokenId == e.tokenId
    && Some(info.leg) == LegOf(e.discovery.value.leg) && Some(info.platform) == PlatformOf(m.platform)
    && info.marketId == m.marketId && info.closeTimeMs == m.closeTimeMs
  }

  /** Conversion succeeds exactly on usable legs, losing nothing; an error names a part that is really at fault. */
  function Minify(e: ArbEssentials): (r: Result<ArbMinifiedInfo, ConversionError>)
    ensures r.Ok? <==> UsableLeg(e)
    ensures r.Ok? ==> Carries(r.value, e)
    ensures r.Err? ==> Lacks(e, r.error)
  {
    if e.discovery.None? then Err(MissingDiscovery)
    else if e.discovery.value.marketInfo.None? then Err(MissingMarketInfo)
    else
      var m := e.discovery.value.marketInfo.value;
      if m.marketId == "" then Err(EmptyMarketId)
      else if m.closeTimeMs == 0 then Err(ZeroCloseTime)
      else if e.tokenId == "" then Err(EmptyTokenId)
      else match PlatformOf(m.platform)
        case None => Err(InvalidPlatform)
        case Some(platform) =>
          match LegOf(e.discovery.value.leg)
          case None => Err(InvalidLeg)
          case Some(leg) =>
            Ok(ArbMinifiedInfo(MakeMarketKey(e.tokenId, platform), platform, m.marketId, e.tokenId, leg, m.closeTimeMs))
  }

  /** A pair converts exactly when both legs are present and usable; each half keeps its own leg. */
  function MinifyPair(cid: Cid, arb: Arb): (r: Result<ArbWatch, ConversionError>)
    ensures r.Ok? <==>
            && arb.anchor.Some? && arb.matched.Some?
            && UsableLeg(arb.anchor.value) && UsableLeg(arb.matched.value)
    ensures r.Ok? ==> r.value.cid == cid && r.value.Keyed()
    ensures r.Ok? ==> Carries(r.value.anchor, arb.anchor.value) && Carries(r.value.matched, arb.matched.value)
  {
    if arb.anchor.None? || arb.matched.None? then Err(MissingLeg)
    else match Minify(arb.anchor.value)
      case Err(e) => Err(e)
      case Ok(anchor) =>
        match Minify(arb.matched.value)
        case Err(e) => Err(e)
        case Ok(matched) => Ok(ArbWatch(cid, anchor, matched))
  }
}
