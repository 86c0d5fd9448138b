/** When a watched pair turns into an execution request (`evaluate_arb` in `src/picker.rs`), on values. */
module Evaluation {
  import opened Models
  import opened OrderBooks
  import opened Quotes
  import opened WatchIndex

  /** Limits set once: the cooldown, the queue's capacity, and the range of representable dates. */
  datatype Config = Config(cooldown: nat, capacity: nat, minDateMs: int, maxDateMs: int)

  /** One reading of the wall clock (milliseconds) and of the monotonic clock. */
  datatype Clock = Clock(utcMs: int, mono: int)

  const TEN_MINUTES_MS := 600_000
  const ONE_HOUR_MS := 3_600_000

  /** What the two tasks share besides prices. `open` is false once the executor has gone. */
  datatype Desk = Desk(inFlight: set<Cid>, cooldown: map<Cid, int>, queue: seq<ExecutionRequest>, open: bool)

  function Elapsed(now: int, since: int): nat {
    if since <= now then now - since else 0
  }

  predicate Cooling(config: Config, desk: Desk, c: Cid, clock: Clock) {
    c in desk.cooldown && Elapsed(clock.mono, desk.cooldown[c]) < config.cooldown
  }

  predicate HasRoom(config: Config, desk: Desk) {
    desk.open && |desk.queue| < config.capacity
  }

  predicate Representable(config: Config, ms: int) {
    config.minDateMs <= ms <= config.maxDateMs
  }

  /** A close in the coming window; a close already past is not within it. */
  predicate ClosesWithin(closeMs: int, nowMs: int, windowMs: int) {
    nowMs < closeMs <= nowMs + windowMs
  }

  /** The guard applies only when both close times are representable dates. */
  predicate TooCloseToExpiry(config: Config, w: ArbWatch, nowMs: int) {
    && Representable(config, w.anchor.closeTimeMs) && Representable(config, w.matched.closeTimeMs)
    && (ClosesWithin(w.anchor.closeTimeMs, nowMs, TEN_MINUTES_MS)
        || ClosesWithin(w.matched.closeTimeMs, nowMs, TEN_MINUTES_MS))
  }

  predicate Quoted(quotes: Quotes, w: ArbWatch) {
    w.anchor.marketKey in quotes && w.matched.marketKey in quotes
  }

  function UnitCost(quotes: Quotes, w: ArbWatch): real
    requires Quoted(quotes, w)
  {
    NeededAskPrice(quotes[w.anchor.marketKey], w.anchor) + NeededAskPrice(quotes[w.matched.marketKey], w.matched)
  }

  /** An id the evaluation turns into a request, given room in the queue. */
  predicate Eligible(config: Config, records: Records, quotes: Quotes, desk: Desk, c: Cid, clock: Clock) {
    && c !in desk.inFlight
    && !Cooling(config, desk, c, clock)
    && c in records
    && !TooCloseToExpiry(config, records[c], clock.utcMs)
    && Quoted(quotes, records[c])
    && 0.0 < UnitCost(quotes, records[c]) < 0.95
  }

  function RequestFor(quotes: Quotes, c: Cid, w: ArbWatch): ExecutionRequest
    requires Quoted(quotes, w)
  {
    var a, m := quotes[w.anchor.marketKey], quotes[w.matched.marketKey];
    ExecutionRequest(c, w.anchor, w.matched,
                     NeededAskPrice(a, w.anchor), NeededAskPrice(m, w.matched),
                     NeededAskSize(a, w.anchor), NeededAskSize(m, w.matched))
  }

  /** An expired cooldown met by an evaluation: looked at only when the id is not in flight. */
  predicate Thaws(config: Config, desk: Desk, c: Cid, clock: Clock) {
    c !in desk.inFlight && c in desk.cooldown && !Cooling(config, desk, c, clock)
  }

  // ---- one tick, over a set of ids ----

  function Ids(requests: seq<ExecutionRequest>): set<Cid> {
    set r | r in requests :: r.cid
  }

  ghost predicate DistinctIds(requests: seq<ExecutionRequest>) {
    forall i, j :: 0 <= i < j < |requests| ==> requests[i].cid != requests[j].cid
  }

  ghost function EligibleAmong(config: Config, records: Records, quotes: Quotes, desk: Desk,
                               ids: set<Cid>, clock: Cid -> Clock): set<Cid> {
    set c | c in ids && Eligible(config, records, quotes, desk, c, clock(c))
  }

  /**
   The effect of evaluating each of `ids` once, in any order: a batch of requests is appended, one per id and
   only for ids eligible at the start, all of them unless the queue ran out of room on the way; exactly the ids
   requested go in flight, and exactly the expired cooldowns met are forgotten.
   */
  ghost predicate Dispatched(config: Config, records: Records, quotes: Quotes, before: Desk, after: Desk,
                             ids: set<Cid>, clock: Cid -> Clock) {
    && Batched(config, records, quotes, before, after, ids, clock)
    && Thawed(config, before, after, ids, clock)
    && after.open == before.open
  }

  ghost predicate Batched(config: Config, records: Records, quotes: Quotes, before: Desk, after: Desk,
                          ids: set<Cid>, clock: Cid -> Clock) {
    && before.queue <= after.queue
    && var batch := after.queue[|before.queue|..];
    && var eligible := EligibleAmong(config, records, quotes, before, ids, clock);
    && DistinctIds(batch)
    && (forall r :: r in batch ==> r.cid in eligible && r == RequestFor(quotes, r.cid, records[r.cid]))
    && (Ids(batch) == eligible || !HasRoom(config, after))
    && after.inFlight == before.inFlight + Ids(batch)
  }

  ghost predicate Thawed(config: Config, before: Desk, after: Desk, ids: set<Cid>, clock: Cid -> Clock) {
    && (forall c :: c in after.cooldown <==>
                    c in before.cooldown && !(c in ids && Thaws(config, before, c, clock(c))))
    && (forall c :: c in after.cooldown ==> after.cooldown[c] == before.cooldown[c])
  }

  /** One more evaluation, of an id not evaluated yet. */
  lemma DispatchOneMore(config: Config, records: Records, quotes: Quotes, before: Desk, middle: Desk, after: Desk,
                        ids: set<Cid>, c: Cid, clock: Cid -> Clock)
    requires Dispatched(config, records, quotes, before, middle, ids, clock) && c !in ids
    requires Evaluated(config, records, quotes, middle, after, c, clock(c))
    ensures Dispatched(config, records, quotes, before, after, ids + {c}, clock)
  {
    SameStanding(config, records, quotes, before, middle, ids, c, clock);
    ThawOneMore(config, before, middle, after, ids, c, clock);
    BatchOneMore(config, records, quotes, before, middle, after, ids, c, clock);
  }

  /** An id not evaluated yet stands as it did before the others were. */
  lemma SameStanding(config: Config, records: Records, quotes: Quotes, before: Desk, middle: Desk,
                     ids: set<Cid>, c: Cid, clock: Cid -> Clock)
    requires Dispatched(config, records, quotes, before, middle, ids, clock) && c !in ids
    ensures c in middle.inFlight <==> c in before.inFlight
    ensures c in middle.cooldown <==> c in before.cooldown
    ensures Thaws(config, middle, c, clock(c)) <==> Thaws(config, before, c, clock(c))
    ensures Eligible(config, records, quotes, middle, c, clock(c)) <==>
            Eligible(config, records, quotes, before, c, clock(c))
  {
    assert c !in Ids(middle.queue[|before.queue|..]);
  }

  lemma ThawOneMore(config: Config, before: Desk, middle: Desk, after: Desk, ids: set<Cid>, c: Cid, clock: Cid -> Clock)
    requires Thawed(config, before, middle, ids, clock)
    requires Thaws(config, middle, c, clock(c)) <==> Thaws(config, before, c, clock(c))
    requires after.cooldown == if Thaws(config, middle, c, clock(c)) then middle.cooldown - {c} else middle.cooldown
    ensures Thawed(config, before, after, ids + {c}, clock)
  {
  }

  lemma BatchOneMore(config: Config, records: Records, quotes: Quotes, before: Desk, middle: Desk, after: Desk,
                     ids: set<Cid>, c: Cid, clock: Cid -> Clock)
    requires Batched(config, records, quotes, before, middle, ids, clock) && c !in ids
    requires Eligible(config, records, quotes, middle, c, clock(c)) <==>
             Eligible(config, records, quotes, before, c, clock(c))
    requires Evaluated(config, records, quotes, middle, after, c, clock(c))
    ensures Batched(config, records, quotes, before, after, ids + {c}, clock)
  {
    var batch, more := middle.queue[|before.queue|..], after.queue[|before.queue|..];
    assert c !in Ids(batch);
    if middle.queue != after.queue {
      IdsOneMore(batch, RequestFor(quotes, c, records[c]));
      assert more == batch + [RequestFor(quotes, c, records[c])];
    } else {
      assert more == batch;
    }
  }

  lemma IdsOneMore(requests: seq<ExecutionRequest>, r: ExecutionRequest)
    ensures Ids(requests + [r]) == Ids(requests) + {r.cid}
  {
    assert r in requests + [r];
    assert forall x :: x in requests ==> x in requests + [r];
  }

  /** The effect of evaluating one id. */
  ghost predicate Evaluated(config: Config, records: Records, quotes: Quotes, before: Desk, after: Desk, c: Cid,
                            clock: Clock) {
    && after.open == before.open
    && after.cooldown == (if Thaws(config, before, c, clock) then before.cooldown - {c} else before.cooldown)
    && if Eligible(config, records, quotes, before, c, clock) && HasRoom(config, before)
       then after.queue == before.queue + [RequestFor(quotes, c, records[c])] && after.inFlight == before.inFlight + {c}
       else after.queue == before.queue && after.inFlight == before.inFlight
  }

  /** The window of ten minutes ahead; a date outside the representable ones switches the guard off. */
  predicate Guarded(config: Config, w: ArbWatch, nowMs: int) {
    var a, m := w.anchor.closeTimeMs, w.matched.closeTimeMs;
    && config.minDateMs <= a <= config.maxDateMs && config.minDateMs <= m <= config.maxDateMs
    && (nowMs < a <= nowMs + 600_000 || nowMs < m <= nowMs + 600_000)
  }

  /**
   A leg is bought at the ask of its own side: the other side of a Kalshi book is what that side leaves of a dollar.
   */
  function AskOf(tob: TopOfBook, leg: ArbMinifiedInfo): real {
    if leg.platform.Kalshi? && leg.leg.Right? then 1.0 - tob.bestBid else tob.bestAsk
  }

  /**
   With room in the queue, an evaluation makes a request exactly under these conditions, read off the state it finds.
   */
  lemma RequestedIff(config: Config, records: Records, quotes: Quotes, before: Desk, after: Desk, c: Cid, clock: Clock)
    requires Evaluated(config, records, quotes, before, after, c, clock)
    requires before.open && |before.queue| < config.capacity
    ensures after.queue != before.queue <==>
            && c !in before.inFlight
            && (c in before.cooldown ==> config.cooldown == 0 || before.cooldown[c] + config.cooldown <= clock.mono)
            && c in records
            && var w := records[c];
            && !Guarded(config, w, clock.utcMs)
            && w.anchor.marketKey in quotes && w.matched.marketKey in quotes
            && 0.0 < AskOf(quotes[w.anchor.marketKey], w.anchor) + AskOf(quotes[w.matched.marketKey], w.matched) < 0.95
  {
  }

  /** A request carries both legs, and the price and the size that each would be bought at. */
  lemma RequestsCarryTheirLegs(quotes: Quotes, c: Cid, w: ArbWatch)
    requires Quoted(quotes, w)
    ensures var r, a, m := RequestFor(quotes, c, w), quotes[w.anchor.marketKey], quotes[w.matched.marketKey];
            && r.cid == c && r.anchor == w.anchor && r.matched == w.matched
            && r.anchorWsPrice == AskOf(a, w.anchor) && r.matchWsPrice == AskOf(m, w.matched)
            && r.anchorWsSize == SizeOf(a, w.anchor) && r.matchWsSize == SizeOf(m, w.matched)
  {
  }

  /** The size that rests against a leg: a Kalshi NO meets the YES bids. */
  function SizeOf(tob: TopOfBook, leg: ArbMinifiedInfo): real {
    if leg.platform.Kalshi? && leg.leg.Right? then tob.bidSize else tob.askSize
  }

  // ---- the indexed path against a full scan ----

  /** The requests that a scan of every record, for eligible pairs with a leg on `m`, would enqueue. */
  ghost function FullScan(config: Config, records: Records, quotes: Quotes, desk: Desk, m: MarketKey,
                          clock: Cid -> Clock): set<ExecutionRequest> {
    set c | c in records && records[c].HasLeg(m) && Eligible(config, records, quotes, desk, c, clock(c))
      :: RequestFor(quotes, c, records[c])
  }

  /** Looking up only the ids indexed under the market enqueues exactly what the full scan would. */
  lemma FastPathIsFullScan(config: Config, registry: Registry, records: Records, quotes: Quotes,
                           before: Desk, after: Desk, m: MarketKey, clock: Cid -> Clock)
    requires DualIndex(registry, records)
    requires var ids := if m in registry then registry[m] else {};
             Dispatched(config, records, quotes, before, after, ids, clock)
    requires before.open
    requires |before.queue| + |FullScan(config, records, quotes, before, m, clock)| <= config.capacity
    ensures (set r | r in after.queue[|before.queue|..]) == FullScan(config, records, quotes, before, m, clock)
    ensures |after.queue| == |before.queue| + |FullScan(config, records, quotes, before, m, clock)|
  {
    var ids := if m in registry then registry[m] else {};
    var batch, scan := after.queue[|before.queue|..], FullScan(config, records, quotes, before, m, clock);
    var eligible := EligibleAmong(config, records, quotes, before, ids, clock);
    forall c ensures c in ids <==> c in records && records[c].HasLeg(m) {
      assert Indexed(registry, m, c) <==> Watches(records, c, m);
    }
    var sent := set r | r in batch;
    DistinctCount(batch);
    assert sent <= scan;
    SubsetCount(sent, scan);
    if Ids(batch) != eligible {
      assert |after.queue| >= config.capacity;
      assert |sent| >= |scan|;
      SubsetEqual(sent, scan);
    } else {
      forall r | r in scan ensures r in sent {
        assert r.cid in eligible;
        var s :| s in batch && s.cid == r.cid;
        assert s == r;
      }
    }
  }

  lemma {:induction false} DistinctCount(requests: seq<ExecutionRequest>)
    requires DistinctIds(requests)
    ensures |set r | r in requests| == |requests|
  {
    if requests != [] {
      var init, last := requests[..|requests| - 1], requests[|requests| - 1];
      DistinctCount(init);
      assert last !in init;
      assert (set r | r in requests) == (set r | r in init) + {last};
    }
  }

  lemma {:induction false} SubsetCount<T>(a: set<T>, b: set<T>)
    requires a <= b
    ensures |a| <= |b|
  {
    if a != {} {
      var x :| x in a;
      SubsetCount(a - {x}, b - {x});
    }
  }

  lemma SubsetEqual<T>(a: set<T>, b: set<T>)
    requires a <= b && |a| >= |b|
    ensures a == b
  {
    if x :| x in b && x !in a {
      SubsetCount(a, b - {x});
    }
  }
}
