/**
 The paged history backfill with retries and dedup (`backfill_polymarket_for_market_tag` in
 `src/platforms/polymarket.rs`).
 */
module Backfill {
  import opened Wrappers

  const LIMIT := 100
  const MAX_RETRIES := 3

  datatype Market = Market(conditionId: Option<string>, slug: string)

  /** Markets without a condition id all share the empty one. */
  function KeyOf(m: Market): string {
    m.conditionId.GetOr("")
  }

  function Keys(markets: seq<Market>): set<string> {
    set m | m in markets :: KeyOf(m)
  }

  // ---- stable dedup ----

  /** No earlier market has the key of the one at `j`. */
  predicate FirstOccurrence(markets: seq<Market>, j: nat)
    requires j < |markets|
  {
    forall i :: 0 <= i < j ==> markets[i].conditionId.GetOr("") != markets[j].conditionId.GetOr("")
  }

  function Dedup(markets: seq<Market>): seq<Market> {
    if markets == [] then []
    else
      var init, last := markets[..|markets| - 1], markets[|markets| - 1];
      if KeyOf(last) in Keys(init) then Dedup(init) else Dedup(init) + [last]
  }

  /** `kept` lists, in order, the indexes of the first occurrences, and `result` is what stands there. */
  ghost predicate FirstsInOrder(markets: seq<Market>, kept: seq<nat>, result: seq<Market>) {
    && |kept| == |result|
    && (forall i :: 0 <= i < |kept| ==> kept[i] < |markets| && result[i] == markets[kept[i]])
    && (forall i, j :: 0 <= i < j < |kept| ==> kept[i] < kept[j])
    && (forall j: nat :: j < |markets| ==> (j in kept <==> FirstOccurrence(markets, j)))
  }

  /** The result is the first occurrence of every key, and nothing else, in the original order. */
  lemma {:induction false} DedupKeepsFirstOccurrences(markets: seq<Market>) returns (kept: seq<nat>)
    ensures FirstsInOrder(markets, kept, Dedup(markets))
  {
    if markets == [] {
      return [];
    }
    var n := |markets| - 1;
    kept := DedupKeepsFirstOccurrences(markets[..n]);
    FirstsOneMore(markets, kept, Dedup(markets[..n]));
    if KeyOf(markets[n]) !in Keys(markets[..n]) {
      kept := kept + [n];
    }
  }

  lemma FirstsOneMore(markets: seq<Market>, kept: seq<nat>, result: seq<Market>)
    requires markets != []
    requires var n := |markets| - 1; FirstsInOrder(markets[..n], kept, result)
    ensures var n := |markets| - 1;
            if KeyOf(markets[n]) in Keys(markets[..n])
            then FirstsInOrder(markets, kept, result)
            else FirstsInOrder(markets, kept + [n], result + [markets[n]])
  {
    var n := |markets| - 1;
    SeenIffNotFirst(markets, n);
    forall j: nat | j < n ensures FirstOccurrence(markets, j) <==> FirstOccurrence(markets[..n], j) {
      assert markets[..n][j] == markets[j];
    }
    assert forall j: nat :: j in kept + [n] <==> j in kept || j == n;
  }

  lemma SeenIffNotFirst(markets: seq<Market>, j: nat)
    requires j < |markets|
    ensures KeyOf(markets[j]) in Keys(markets[..j]) <==> !FirstOccurrence(markets, j)
  {
    if !FirstOccurrence(markets, j) {
      var i :| 0 <= i < j && KeyOf(markets[i]) == KeyOf(markets[j]);
      assert markets[i] in markets[..j];
    }
  }

  // ---- what the venue answers ----

  datatype Attempt = Served | Transient | Permanent

  /** The venue's answers: for a tag, an offset and an attempt number. */
  type Network = (nat, nat, nat) -> Attempt

  /** A page is served if an attempt succeeds before a permanent error and before the third failure. */
  predicate Serves(net: Network, tag: nat, offset: nat, tried: nat)
    decreases MAX_RETRIES - tried
  {
    match net(tag, offset, tried)
    case Served => true
    case Permanent => false
    case Transient => tried + 1 < MAX_RETRIES && Serves(net, tag, offset, tried + 1)
  }

  /** The first success within three tries, with nothing but transient errors before it. */
  lemma ServesIff(net: Network, tag: nat, offset: nat)
    ensures Serves(net, tag, offset, 0) <==>
            || net(tag, offset, 0).Served?
            || (net(tag, offset, 0).Transient? && net(tag, offset, 1).Served?)
            || (net(tag, offset, 0).Transient? && net(tag, offset, 1).Transient? && net(tag, offset, 2).Served?)
  {
    assert Serves(net, tag, offset, 1) <==>
           net(tag, offset, 1).Served? || (net(tag, offset, 1).Transient? && Serves(net, tag, offset, 2));
  }

  function Clip(list: seq<Market>, n: nat): nat {
    if n <= |list| then n else |list|
  }

  function Page(list: seq<Market>, offset: nat): seq<Market> {
    list[Clip(list, offset)..Clip(list, offset + LIMIT)]
  }

  /** How many of a tag's markets the paging takes from `offset` on. */
  function Taken(net: Network, tag: nat, list: seq<Market>, offset: nat): nat
    decreases |list| - offset
  {
    if !Serves(net, tag, offset, 0) then Clip(list, offset)
    else if |list| < offset + LIMIT then |list|
    else Taken(net, tag, list, offset + LIMIT)
  }

  /** Every page from the `p`-th on that has a market is served. */
  ghost predicate ServesFrom(net: Network, tag: nat, list: seq<Market>, p: nat) {
    forall k: nat :: p <= k && k * LIMIT < |list| ==> Serves(net, tag, k * LIMIT, 0)
  }

  /**
   The whole list is taken exactly when every page that has a market is served; otherwise a whole number of pages is.
   */
  lemma {:induction false} TakenIsAllOrWholePages(net: Network, tag: nat, list: seq<Market>, p: nat)
    requires p * LIMIT <= |list|
    ensures var taken := Taken(net, tag, list, p * LIMIT);
            && p * LIMIT <= taken <= |list|
            && (taken == |list| || taken % 100 == 0)
            && (taken == |list| <==> ServesFrom(net, tag, list, p))
    decreases |list| - p * LIMIT
  {
    if !Serves(net, tag, p * LIMIT, 0) {
      assert Taken(net, tag, list, p * LIMIT) == p * LIMIT;
    } else if (p + 1) * LIMIT <= |list| {
      TakenIsAllOrWholePages(net, tag, list, p + 1);
    }
  }

  /** What one served page adds. */
  lemma PageExtends(list: seq<Market>, offset: nat)
    requires offset <= |list|
    ensures list[..offset] + Page(list, offset) == list[..Clip(list, offset + LIMIT)]
    ensures |Page(list, offset)| < LIMIT <==> |list| < offset + LIMIT
  {
  }

  /** A page short of the limit ends what is taken; a full one leaves the rest to the pages after it. */
  lemma PageTaken(net: Network, tag: nat, list: seq<Market>, offset: nat, size: nat)
    requires offset <= |list|
    requires size == if Serves(net, tag, offset, 0) then |Page(list, offset)| else 0
    ensures offset + size <= |list| && size <= LIMIT
    ensures Taken(net, tag, list, offset) ==
            if size < LIMIT then offset + size else Taken(net, tag, list, offset + LIMIT)
  {
    PageExtends(list, offset);
  }

  lemma PrefixGrows(received: seq<Market>, list: seq<Market>, from: nat, to: nat)
    requires from <= to <= |list|
    ensures received + list[..from] + list[from..to] == received + list[..to]
  {
    assert list[..from] + list[from..to] == list[..to];
  }

  /** The concatenation of a prefix of every list. */
  function Prefixes(lists: seq<seq<Market>>, taken: seq<nat>): seq<Market>
    requires |taken| == |lists| && forall i :: 0 <= i < |lists| ==> taken[i] <= |lists[i]|
  {
    if lists == [] then []
    else
      var n := |lists| - 1;
      Prefixes(lists[..n], taken[..n]) + lists[n][..taken[n]]
  }

  lemma PrefixesOneMore(lists: seq<seq<Market>>, taken: seq<nat>, n: nat)
    requires |taken| < |lists| && n <= |lists[|taken|]|
    requires forall i :: 0 <= i < |taken| ==> taken[i] <= |lists[i]|
    ensures Prefixes(lists[..|taken| + 1], taken + [n]) == Prefixes(lists[..|taken|], taken) + lists[|taken|][..n]
  {
    assert lists[..|taken| + 1][..|taken|] == lists[..|taken|] && (taken + [n])[..|taken|] == taken;
  }

  /**
   What is taken of every tag: all that the paging takes, but for the first tag where it is less, which gives a whole
   number of pages, and the tags after that one, which give nothing.
   */
  ghost predicate TakenWithin(net: Network, lists: seq<seq<Market>>, taken: seq<nat>)
    requires |taken| <= |lists|
  {
    && (forall i :: 0 <= i < |taken| ==>
          taken[i] <= |lists[i]| && (taken[i] == Taken(net, i, lists[i], 0) || taken[i] % LIMIT == 0))
    && (forall i, j :: 0 <= i < j < |taken| && taken[i] != Taken(net, i, lists[i], 0) ==> taken[j] == 0)
  }

  lemma TakenOneMore(net: Network, lists: seq<seq<Market>>, taken: seq<nat>, n: nat)
    requires |taken| < |lists| && TakenWithin(net, lists, taken) && n <= |lists[|taken|]|
    requires n == 0 || forall i :: 0 <= i < |taken| ==> taken[i] == Taken(net, i, lists[i], 0)
    requires n == Taken(net, |taken|, lists[|taken|], 0) || n % LIMIT == 0
    ensures TakenWithin(net, lists, taken + [n])
  {
    var more := taken + [n];
    forall i, j | 0 <= i < j < |more| && more[i] != Taken(net, i, lists[i], 0) ensures more[j] == 0 {
      assert i < |taken|;
    }
  }

  function Flatten(lists: seq<seq<Market>>): seq<Market> {
    if lists == [] then [] else Flatten(lists[..|lists| - 1]) + lists[|lists| - 1]
  }

  /** When every page is served, what is taken is every list whole. */
  lemma {:induction false} AllServedTakesAll(net: Network, lists: seq<seq<Market>>, taken: seq<nat>)
    requires |taken| == |lists| && TakenWithin(net, lists, taken)
    requires forall i :: 0 <= i < |lists| ==> taken[i] == Taken(net, i, lists[i], 0) && ServesFrom(net, i, lists[i], 0)
    ensures Prefixes(lists, taken) == Flatten(lists)
  {
    if lists != [] {
      var n := |lists| - 1;
      AllServedTakesAll(net, lists[..n], taken[..n]);
      TakenIsAllOrWholePages(net, n, lists[n], 0);
      assert lists[n][..taken[n]] == lists[n];
    }
  }

  // ---- the loops ----

  class Collector {
    var container: seq<Market>
    var seen: set<string>
    /** All markets received so far, for the specification. */
    ghost var received: seq<Market>
    /** How often shutdown was asked about. */
    var polls: nat

    constructor ()
      ensures Valid() && received == [] && polls == 0
    {
      container, seen, received, polls := [], {}, [], 0;
    }

    ghost predicate Valid()
      reads this
    {
      container == Dedup(received) && seen == Keys(received)
    }

    method Poll(cancelled: nat -> bool) returns (stop: bool)
      modifies this`polls
      ensures polls == old(polls) + 1 && stop == cancelled(old(polls))
    {
      stop := cancelled(polls);
      polls := polls + 1;
    }

    /** Keeps the markets of a page whose key was not seen. */
    method AddPage(page: seq<Market>)
      requires Valid()
      modifies this`container, this`seen, this`received
      ensures Valid() && received == old(received) + page
    {
      for i := 0 to |page|
        invariant Valid() && received == old(received) + page[..i]
      {
        var key := KeyOf(page[i]);
        ghost var more := received + [page[i]];
        assert more[..|received|] == received;
        assert Keys(more) == Keys(received) + {key};
        if key !in seen {
          container := container + [page[i]];
          seen := seen + {key};
        }
        received := more;
        assert page[..i + 1] == page[..i] + [page[i]];
      }
      assert page[..|page|] == page;
    }

    /** One page, tried up to three times; nothing when it is given up. */
    method FetchPage(net: Network, tag: nat, list: seq<Market>, offset: nat, cancelled: nat -> bool)
      returns (page: seq<Market>, stopped: bool)
      modifies this`polls
      ensures polls >= old(polls)
      ensures stopped ==> exists n :: cancelled(n)
      ensures !stopped ==> page == if Serves(net, tag, offset, 0) then Page(list, offset) else []
    {
      var tried := 0;
      while true
        invariant tried < MAX_RETRIES && polls >= old(polls)
        invariant Serves(net, tag, offset, 0) <==> Serves(net, tag, offset, tried)
        decreases MAX_RETRIES - tried
      {
        var stop := Poll(cancelled);
        if stop {
          return [], true;
        }
        match net(tag, offset, tried) {
          case Served => return Page(list, offset), false;
          case Permanent => return [], false;
          case Transient =>
            tried := tried + 1;
            if tried >= MAX_RETRIES {
              return [], false;
            }
        }
      }
    }

    /** Fetches and keeps one page; `size` is how many markets it had. */
    method CollectPage(net: Network, tag: nat, list: seq<Market>, offset: nat, cancelled: nat -> bool)
      returns (size: nat, stopped: bool)
      requires Valid() && offset <= |list|
      modifies this
      ensures Valid()
      ensures stopped ==> received == old(received) && exists n :: cancelled(n)
      ensures !stopped ==>
                && size == (if Serves(net, tag, offset, 0) then |Page(list, offset)| else 0)
                && received == old(received) + list[offset..offset + size]
    {
      size := 0;
      stopped := Poll(cancelled);
      if stopped {
        return;
      }
      var page;
      page, stopped := FetchPage(net, tag, list, offset, cancelled);
      if !stopped {
        AddPage(page);
        size := |page|;
      }
    }

    /** Pages through one tag until a short page. */
    method CollectTag(net: Network, tag: nat, list: seq<Market>, cancelled: nat -> bool)
      returns (taken: nat, stopped: bool)
      requires Valid()
      modifies this
      ensures Valid() && taken <= |list| && received == old(received) + list[..taken]
      ensures stopped ==> taken % LIMIT == 0 && exists n :: cancelled(n)
      ensures !stopped ==> taken == Taken(net, tag, list, 0)
    {
      taken := 0;
      var offset := 0;
      while true
        invariant Valid() && offset % LIMIT == 0
        invariant taken == offset <= |list| && received == old(received) + list[..offset]
        invariant Taken(net, tag, list, 0) == Taken(net, tag, list, offset)
        decreases |list| - offset
      {
        var size, halted := CollectPage(net, tag, list, offset, cancelled);
        if halted {
          return offset, true;
        }
        PageTaken(net, tag, list, offset, size);
        PrefixGrows(old(received), list, offset, offset + size);
        taken := offset + size;
        if size < LIMIT {
          return taken, false;
        }
        offset := offset + LIMIT;
      }
    }

    /** The next tag, or nothing of it once shutdown was seen. */
    method CollectNext(net: Network, lists: seq<seq<Market>>, taken: seq<nat>, halted: bool, cancelled: nat -> bool)
      returns (more: seq<nat>, stopped: bool)
      requires Valid() && |taken| < |lists| && TakenWithin(net, lists, taken)
      requires received == Prefixes(lists[..|taken|], taken)
      requires !halted ==> forall i :: 0 <= i < |taken| ==> taken[i] == Taken(net, i, lists[i], 0)
      modifies this
      ensures Valid() && |more| == |taken| + 1 && TakenWithin(net, lists, more)
      ensures received == Prefixes(lists[..|more|], more)
      ensures stopped ==> halted || exists n :: cancelled(n)
      ensures !stopped ==> forall i :: 0 <= i < |more| ==> more[i] == Taken(net, i, lists[i], 0)
    {
      var n := 0;
      stopped := halted;
      if !halted {
        n, stopped := CollectTag(net, |taken|, lists[|taken|], cancelled);
      }
      PrefixesOneMore(lists, taken, n);
      TakenOneMore(net, lists, taken, n);
      more := taken + [n];
    }

    /**
     All tags in turn. The result is the dedup of a prefix of every list: without a shutdown, of what the paging
     takes; after one, of whole pages of the tag it fell in and nothing of the later ones.
     */
    method Collect(net: Network, lists: seq<seq<Market>>, cancelled: nat -> bool) returns (taken: seq<nat>)
      requires Valid() && received == []
      modifies this
      ensures |taken| == |lists| && TakenWithin(net, lists, taken)
      ensures container == Dedup(Prefixes(lists, taken))
      ensures (forall n :: !cancelled(n)) ==> forall i :: 0 <= i < |lists| ==> taken[i] == Taken(net, i, lists[i], 0)
    {
      taken := [];
      var halted := false;
      for tag := 0 to |lists|
        invariant Valid() && |taken| == tag && TakenWithin(net, lists, taken)
        invariant received == Prefixes(lists[..tag], taken)
        invariant halted ==> exists n :: cancelled(n)
        invariant !halted ==> forall i :: 0 <= i < tag ==> taken[i] == Taken(net, i, lists[i], 0)
      {
        taken, halted := CollectNext(net, lists, taken, halted, cancelled);
      }
      assert lists[..|lists|] == lists;
    }
  }
}
