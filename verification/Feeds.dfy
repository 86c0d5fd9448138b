/**
 Venue subscriptions and the unsubscribes that run in the background
 (`add_market_ticker` and `del_market_ticker` of `src/platforms/kalshi.rs` and `src/platforms/polymarket.rs`).
 */
module Feeds {
  import opened Models

  datatype Feed = Feed(platform: Platform, token: string)

  function FeedOf(leg: ArbMinifiedInfo): Feed {
    Feed(leg.platform, leg.tokenId)
  }

  /** An add: nothing to do when already subscribed, otherwise the venue decides. */
  function Add(subscribed: set<Feed>, feed: Feed, accepted: bool): set<Feed> {
    if feed in subscribed || accepted then subscribed + {feed} else subscribed
  }

  /** A removal: Kalshi forgets the ticker whatever the venue answers, Polymarket only when it agrees. */
  function Remove(subscribed: set<Feed>, feed: Feed, accepted: bool): set<Feed> {
    match feed.platform
    case Kalshi => subscribed - {feed}
    case Polymarket => if feed in subscribed && accepted then subscribed - {feed} else subscribed
  }

  /** A background removal that completes, and the venue's answer. */
  datatype Completion = Completion(feed: Feed, accepted: bool)

  function CompleteAll(subscribed: set<Feed>, completions: seq<Completion>): set<Feed> {
    if completions == [] then subscribed
    else CompleteAll(Remove(subscribed, completions[0].feed, completions[0].accepted), completions[1..])
  }

  /** The completions are of removals that are pending. */
  predicate From(completions: seq<Completion>, pending: multiset<Feed>) {
    forall i :: 0 <= i < |completions| ==> completions[i].feed in pending
  }

  /** Every watched feed is subscribed, now and after any pending removals complete in any order. */
  ghost predicate StaysSubscribed(subscribed: set<Feed>, pending: multiset<Feed>, watched: set<Feed>) {
    forall completions: seq<Completion> :: From(completions, pending) ==>
      watched <= CompleteAll(subscribed, completions)
  }

  /** Subscribed, and with no removal pending. */
  predicate Secure(subscribed: set<Feed>, pending: multiset<Feed>, watched: set<Feed>) {
    watched <= subscribed && forall f :: f in watched ==> f !in pending
  }

  /** Staying subscribed whatever completes is the same as being subscribed with nothing pending. */
  lemma SecureIffStaysSubscribed(subscribed: set<Feed>, pending: multiset<Feed>, watched: set<Feed>)
    ensures Secure(subscribed, pending, watched) <==> StaysSubscribed(subscribed, pending, watched)
  {
    if Secure(subscribed, pending, watched) {
      forall completions | From(completions, pending) ensures watched <= CompleteAll(subscribed, completions) {
        SecureCompletes(subscribed, pending, watched, completions);
      }
    }
    if StaysSubscribed(subscribed, pending, watched) {
      assert From([], pending) && CompleteAll(subscribed, []) == subscribed;
      forall f | f in watched ensures f !in pending {
        var one := [Completion(f, true)];
        assert CompleteAll(subscribed, one) == CompleteAll(subscribed - {f}, one[1..]) == subscribed - {f};
        assert f in pending ==> From(one, pending);
      }
    }
  }

  lemma {:induction false} SecureCompletes(
      subscribed: set<Feed>, pending: multiset<Feed>, watched: set<Feed>, completions: seq<Completion>)
    requires Secure(subscribed, pending, watched) && From(completions, pending)
    ensures watched <= CompleteAll(subscribed, completions)
  {
    if completions != [] {
      var next := Remove(subscribed, completions[0].feed, completions[0].accepted);
      SecureCompletes(next, pending, watched, completions[1..]);
    }
  }

  /**
   Adding both legs of a pair and watching them keeps every watched feed safe exactly when no removal of
   either leg is still pending: a late removal would silence a pair that the add found still subscribed.
   */
  lemma WatchKeepsSecureIff(subscribed: set<Feed>, pending: multiset<Feed>, watched: set<Feed>, a: Feed, b: Feed)
    requires Secure(subscribed, pending, watched)
    ensures Secure(Add(Add(subscribed, a, true), b, true), pending, watched + {a, b})
            <==> a !in pending && b !in pending
  {
    var all := watched + {a, b};
    if Secure(Add(Add(subscribed, a, true), b, true), pending, all) {
      assert a in all && b in all;
    }
  }

  // ---- over whole runs ----

  datatype FeedState = FeedState(subscribed: set<Feed>, pending: multiset<Feed>, watched: set<Feed>)

  /**
   A pair offered, with the venues' answers and whether it converts; a feed nobody watches any more; a removal done.
   */
  datatype FeedEvent =
    | Offered(a: Feed, b: Feed, aAccepted: bool, bAccepted: bool, converts: bool)
    | Unwatched(feed: Feed)
    | Completed(completion: Completion)

  function After(s: FeedState, e: FeedEvent): FeedState {
    match e
    case Offered(a, b, aAccepted, bAccepted, converts) =>
      var subscribed := Add(Add(s.subscribed, a, aAccepted), b, bAccepted);
      s.(subscribed := subscribed,
         watched := if a in subscribed && b in subscribed && converts then s.watched + {a, b} else s.watched)
    case Unwatched(feed) => s.(watched := s.watched - {feed}, pending := s.pending + multiset{feed})
    case Completed(c) =>
      if c.feed in s.pending
      then s.(subscribed := Remove(s.subscribed, c.feed, c.accepted), pending := s.pending - multiset{c.feed})
      else s
  }

  function AfterAll(s: FeedState, events: seq<FeedEvent>): FeedState
    decreases |events|
  {
    if events == [] then s else AfterAll(After(s, events[0]), events[1..])
  }

  /**
   An offer subscribes what is accepted, and watches both feeds exactly if both are then subscribed and it converts.
   */
  lemma OffersWatchBoth(s: FeedState, a: Feed, b: Feed, aAccepted: bool, bAccepted: bool, converts: bool)
    ensures var t := After(s, Offered(a, b, aAccepted, bAccepted, converts));
            && t.pending == s.pending
            && t.watched == (if a in t.subscribed && b in t.subscribed && converts then s.watched + {a, b}
                             else s.watched)
            && (forall f :: f in t.subscribed <==> f in s.subscribed || (f == a && aAccepted) || (f == b && bAccepted))
  {
  }

  /** No pair is offered while a removal of one of its feeds is still pending. */
  predicate Orderly(s: FeedState, events: seq<FeedEvent>)
    decreases |events|
  {
    events == [] ||
    ((events[0].Offered? ==> events[0].a !in s.pending && events[0].b !in s.pending)
     && Orderly(After(s, events[0]), events[1..]))
  }

  /**
   Over every orderly run, shared legs, half-subscribed pairs and refused removals included, watched feeds stay
   subscribed.
   */
  lemma {:induction false} OrderlyRunsStaySecure(s: FeedState, events: seq<FeedEvent>)
    requires Secure(s.subscribed, s.pending, s.watched) && Orderly(s, events)
    ensures var t := AfterAll(s, events);
            Secure(t.subscribed, t.pending, t.watched) && t.watched <= t.subscribed
    decreases |events|
  {
    if events != [] {
      OneStepStaysSecure(s, events[0]);
      OrderlyRunsStaySecure(After(s, events[0]), events[1..]);
    }
  }

  lemma OneStepStaysSecure(s: FeedState, e: FeedEvent)
    requires Secure(s.subscribed, s.pending, s.watched)
    requires e.Offered? ==> e.a !in s.pending && e.b !in s.pending
    ensures var t := After(s, e);
            Secure(t.subscribed, t.pending, t.watched)
  {
  }

  lemma AfterFrom(s: FeedState, events: seq<FeedEvent>, i: nat)
    requires i < |events|
    ensures AfterAll(s, events[i..]) == AfterAll(After(s, events[i]), events[i + 1..])
  {
    assert events[i..][1..] == events[i + 1..];
  }

  /** The only pair, dropped, so that both its feeds are to be removed, and offered again before that is done. */
  function TooSoon(a: Feed, b: Feed): seq<FeedEvent> {
    [Offered(a, b, true, true, true), Unwatched(a), Unwatched(b), Offered(a, b, true, true, true),
     Completed(Completion(a, true)), Completed(Completion(b, true))]
  }

  /** It ends up watched and unsubscribed. */
  lemma OfferedTooSoon(a: Feed, b: Feed)
    requires a != b
    ensures AfterAll(FeedState({}, multiset{}, {}), TooSoon(a, b)) == FeedState({}, multiset{}, {a, b})
  {
    var events := TooSoon(a, b);
    var none, both, dropped := FeedState({}, multiset{}, {}), FeedState({a, b}, multiset{}, {a, b}),
                               FeedState({a, b}, multiset{a}, {b});
    AfterFrom(none, events, 0);
    assert events[0..] == events && After(none, events[0]) == both;
    AfterFrom(both, events, 1);
    assert After(both, events[1]) == dropped;
    TooSoonFrom(a, b, dropped);
  }

  lemma TooSoonFrom(a: Feed, b: Feed, dropped: FeedState)
    requires a != b && dropped == FeedState({a, b}, multiset{a}, {b})
    ensures AfterAll(dropped, TooSoon(a, b)[2..]) == FeedState({}, multiset{}, {a, b})
  {
    var events := TooSoon(a, b);
    var pending, again := FeedState({a, b}, multiset{a, b}, {}), FeedState({a, b}, multiset{a, b}, {a, b});
    AfterFrom(dropped, events, 2);
    assert After(dropped, events[2]) == pending;
    AfterFrom(pending, events, 3);
    assert After(pending, events[3]) == again;
    BothRemoved(a, b, again);
  }

  lemma AcceptedRemoves(s: FeedState, f: Feed)
    requires f in s.pending
    ensures After(s, Completed(Completion(f, true)))
            == FeedState(s.subscribed - {f}, s.pending - multiset{f}, s.watched)
  {
    assert Remove(s.subscribed, f, true) == s.subscribed - {f};
  }

  lemma BothRemoved(a: Feed, b: Feed, again: FeedState)
    requires a != b && again == FeedState({a, b}, multiset{a, b}, {a, b})
    ensures AfterAll(again, TooSoon(a, b)[4..]) == FeedState({}, multiset{}, {a, b})
  {
    var events, one := TooSoon(a, b), FeedState({b}, multiset{b}, {a, b});
    AcceptedRemoves(again, a);
    assert {a, b} - {a} == {b} && multiset{a, b} - multiset{a} == multiset{b};
    AfterFrom(again, events, 4);
    OneRemoved(a, b, one);
  }

  lemma OneRemoved(a: Feed, b: Feed, one: FeedState)
    requires a != b && one == FeedState({b}, multiset{b}, {a, b})
    ensures AfterAll(one, TooSoon(a, b)[5..]) == FeedState({}, multiset{}, {a, b})
  {
    AcceptedRemoves(one, b);
    AfterFrom(one, TooSoon(a, b), 5);
  }

  /** A removal that runs leaves alone the feeds that none is pending for. */
  lemma RemovalSpares(subscribed: set<Feed>, pending: multiset<Feed>, feed: Feed, accepted: bool, watched: set<Feed>)
    requires feed in pending && Secure(subscribed, pending, watched)
    ensures Secure(Remove(subscribed, feed, accepted), pending - multiset{feed}, watched)
  {
  }

  /** The subscription sets of both venues, and the removals spawned but not finished. */
  class FeedsClient {
    var subscribed: set<Feed>
    var pending: multiset<Feed>

    constructor ()
      ensures subscribed == {} && pending == multiset{}
    {
      subscribed, pending := {}, multiset{};
    }

    method AddMarketTicker(feed: Feed, accepted: bool) returns (ok: bool)
      modifies this`subscribed
      ensures subscribed == Add(old(subscribed), feed, accepted)
      ensures ok <==> feed in subscribed
    {
      if feed in subscribed {
        return true;
      }
      if !accepted {
        return false;
      }
      subscribed := subscribed + {feed};
      ok := true;
    }

    method SpawnRemoval(feed: Feed)
      modifies this`pending
      ensures pending == old(pending) + multiset{feed}
    {
      pending := pending + multiset{feed};
    }

    /** One spawned removal runs to its end; feeds that are safe stay safe. */
    method RunRemoval(feed: Feed, accepted: bool)
      requires feed in pending
      modifies this
      ensures subscribed == Remove(old(subscribed), feed, accepted)
      ensures pending == old(pending) - multiset{feed}
      ensures forall watched: set<Feed> ::
                old(Secure(subscribed, pending, watched)) ==> Secure(subscribed, pending, watched)
    {
      match feed.platform {
        case Kalshi => subscribed := subscribed - {feed};
        case Polymarket =>
          if feed in subscribed && accepted {
            subscribed := subscribed - {feed};
          }
      }
      pending := pending - multiset{feed};
      forall watched: set<Feed> | old(Secure(subscribed, pending, watched))
        ensures Secure(subscribed, pending, watched)
      {
        RemovalSpares(old(subscribed), old(pending), feed, accepted, watched);
      }
    }
  }
}
