/** The top-of-book map as a register per market: newer timestamps win (`on_price_update` in `src/picker.rs`). */
module Quotes {
  import opened Models

  type Quotes = map<MarketKey, TopOfBook>

  datatype Update = Update(key: MarketKey, tob: TopOfBook)

  /** An update is stored only if it is strictly newer than what the market already has. */
  predicate Fresh(quotes: Quotes, key: MarketKey, tob: TopOfBook) {
    key in quotes ==> quotes[key].timestampMs < tob.timestampMs
  }

  function Store(quotes: Quotes, u: Update): Quotes {
    if Fresh(quotes, u.key, u.tob) then quotes[u.key := u.tob] else quotes
  }

  function StoreAll(quotes: Quotes, updates: seq<Update>): Quotes {
    if updates == [] then quotes
    else Store(StoreAll(quotes, updates[..|updates| - 1]), updates[|updates| - 1])
  }

  /** `updates[i]` is the first arrival, for its market, of the greatest timestamp; it beats what was there. */
  ghost predicate Wins(quotes: Quotes, updates: seq<Update>, i: nat)
    requires i < |updates|
  {
    && Fresh(quotes, updates[i].key, updates[i].tob)
    && (forall j :: 0 <= j < |updates| && updates[j].key == updates[i].key ==>
          updates[j].tob.timestampMs <= updates[i].tob.timestampMs)
    && (forall j :: 0 <= j < i && updates[j].key == updates[i].key ==>
          updates[j].tob.timestampMs < updates[i].tob.timestampMs)
  }

  /** What the market held before is at least as new as every update to it. */
  ghost predicate Stands(quotes: Quotes, updates: seq<Update>, key: MarketKey) {
    forall j :: 0 <= j < |updates| && updates[j].key == key ==> !Fresh(quotes, key, updates[j].tob)
  }

  /** Every market's stored value is that of a winning update, or the old value when none wins (`winner` is -1). */
  lemma {:induction false} StoredIsTheWinner(quotes: Quotes, updates: seq<Update>, key: MarketKey)
    returns (winner: int)
    ensures -1 <= winner < |updates|
    ensures winner == -1 ==>
              && Stands(quotes, updates, key)
              && (key in StoreAll(quotes, updates) <==> key in quotes)
              && (key in quotes ==> StoreAll(quotes, updates)[key] == quotes[key])
    ensures 0 <= winner ==>
              && updates[winner].key == key && Wins(quotes, updates, winner)
              && key in StoreAll(quotes, updates) && StoreAll(quotes, updates)[key] == updates[winner].tob
  {
    if updates == [] {
      return -1;
    }
    var n := |updates| - 1;
    var init, last := updates[..n], updates[n];
    winner := StoredIsTheWinner(quotes, init, key);
    if last.key == key && Fresh(StoreAll(quotes, init), key, last.tob) {
      if 0 <= winner {
        assert forall j :: 0 <= j < n && updates[j].key == key ==>
          init[j].tob.timestampMs <= init[winner].tob.timestampMs;
      }
      winner := n;
    }
  }

  /** Between evictions a market's stored timestamp never falls, and it rises whenever the value changes. */
  lemma {:induction false} StoredTimestampsRise(quotes: Quotes, updates: seq<Update>, key: MarketKey)
    requires key in quotes
    ensures var after := StoreAll(quotes, updates);
            key in after &&
            (after[key] == quotes[key] || quotes[key].timestampMs < after[key].timestampMs)
  {
    if updates != [] {
      StoredTimestampsRise(quotes, updates[..|updates| - 1], key);
    }
  }

  /** No two different arrivals for one market carry the same timestamp. */
  ghost predicate DistinctTimestamps(updates: seq<Update>) {
    forall i, j :: 0 <= i < j < |updates| && updates[i].key == updates[j].key ==>
      updates[i].tob.timestampMs != updates[j].tob.timestampMs
  }

  /** Arrival order does not matter: with distinct timestamps any permutation ends in the same map. */
  lemma PermutationsAgree(quotes: Quotes, updates: seq<Update>, permuted: seq<Update>)
    requires multiset(updates) == multiset(permuted)
    requires DistinctTimestamps(updates)
    ensures StoreAll(quotes, updates) == StoreAll(quotes, permuted)
  {
    SameMembers(updates, permuted);
    var a, b := StoreAll(quotes, updates), StoreAll(quotes, permuted);
    forall key ensures (key in a <==> key in b) && (key in a ==> a[key] == b[key]) {
      var i := StoredIsTheWinner(quotes, updates, key);
      var j := StoredIsTheWinner(quotes, permuted, key);
      assert 0 <= i ==> updates[i] in permuted;
      assert 0 <= j ==> permuted[j] in updates;
    }
  }

  lemma SameMembers(updates: seq<Update>, permuted: seq<Update>)
    requires multiset(updates) == multiset(permuted)
    ensures forall u :: u in updates <==> u in permuted
  {
    forall u ensures u in updates <==> u in permuted {
      assert u in updates <==> u in multiset(updates);
    }
  }
}
