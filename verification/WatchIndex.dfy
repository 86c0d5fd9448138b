/** The two indexes of active watches, on values (`Book` in `src/picker.rs`). */
module WatchIndex {
  import opened Models

  type Registry = map<MarketKey, set<Cid>>
  type Records = map<Cid, ArbWatch>

  predicate Indexed(registry: Registry, m: MarketKey, c: Cid) {
    m in registry && c in registry[m]
  }

  predicate Watches(records: Records, c: Cid, m: MarketKey) {
    c in records && records[c].HasLeg(m)
  }

  /** The reverse index holds exactly the legs of the forward index, with no empty entry. */
  ghost predicate DualIndex(registry: Registry, records: Records) {
    && (forall m :: m in registry ==> registry[m] != {})
    && (forall m, c :: Indexed(registry, m, c) <==> Watches(records, c, m))
  }

  function LegKeys(records: Records): set<MarketKey> {
    (set c | c in records :: records[c].anchor.marketKey) + (set c | c in records :: records[c].matched.marketKey)
  }

  function Watchers(records: Records, m: MarketKey): set<Cid> {
    set c | c in records && records[c].HasLeg(m)
  }

  /** The reverse index computed from scratch. */
  function ReverseIndex(records: Records): Registry {
    map m | m in LegKeys(records) :: Watchers(records, m)
  }

  /** Keeping the two in step means that the incremental index is the one computed from scratch. */
  lemma DualIndexIsReverseIndex(registry: Registry, records: Records)
    ensures DualIndex(registry, records) <==> registry == ReverseIndex(records)
  {
    var scratch := ReverseIndex(records);
    forall m, c ensures Indexed(scratch, m, c) <==> Watches(records, c, m) {
    }
    forall m | m in scratch ensures scratch[m] != {} {
      var c :| c in records && records[c].HasLeg(m);
      assert c in scratch[m];
    }
    if DualIndex(registry, records) {
      forall m ensures (m in registry <==> m in scratch) && (m in registry ==> registry[m] == scratch[m]) {
        if m in registry {
          var c :| c in registry[m];
          assert Indexed(registry, m, c) && Indexed(scratch, m, c);
          forall x ensures x in registry[m] <==> x in scratch[m] {
            assert Indexed(registry, m, x) <==> Indexed(scratch, m, x);
          }
        } else if m in scratch {
          var c :| c in scratch[m];
          assert Indexed(scratch, m, c) && !Indexed(registry, m, c);
        }
      }
    }
  }

  // ---- registration ----

  function AddWatcher(registry: Registry, m: MarketKey, c: Cid): Registry {
    registry[m := (if m in registry then registry[m] else {}) + {c}]
  }

  function Register(registry: Registry, w: ArbWatch): Registry {
    AddWatcher(AddWatcher(registry, w.anchor.marketKey, w.cid), w.matched.marketKey, w.cid)
  }

  /** A watch that replaces none, or one all of whose markets it also watches. */
  predicate KeepsLegs(records: Records, w: ArbWatch) {
    w.cid in records ==>
      w.HasLeg(records[w.cid].anchor.marketKey) && w.HasLeg(records[w.cid].matched.marketKey)
  }

  /** Registration does not clean up replaced legs: the indexes stay in step exactly when there are none. */
  lemma RegisterKeepsIndexIff(registry: Registry, records: Records, w: ArbWatch)
    requires DualIndex(registry, records)
    ensures DualIndex(Register(registry, w), records[w.cid := w]) <==> KeepsLegs(records, w)
  {
    var reg, rec := Register(registry, w), records[w.cid := w];
    forall m, c
      ensures Indexed(reg, m, c) <==> Indexed(registry, m, c) || (c == w.cid && w.HasLeg(m))
      ensures Watches(rec, c, m) <==> if c == w.cid then w.HasLeg(m) else Watches(records, c, m)
    {
    }
    if !KeepsLegs(records, w) {
      var prior := records[w.cid];
      var m := if w.HasLeg(prior.anchor.marketKey) then prior.matched.marketKey else prior.anchor.marketKey;
      assert Watches(records, w.cid, m) && Indexed(registry, m, w.cid);
      assert Indexed(reg, m, w.cid) && !Watches(rec, w.cid, m);
    }
  }

  /** Every record is under its own id, which is the one its tokens give it, and under its own keys. */
  predicate AllNamed(naming: Naming, records: Records) {
    forall c :: c in records ==> records[c].cid == c && records[c].Keyed() && naming.NamesWatch(records[c])
  }

  /** An id names two tokens, so a watch registered again under an id that its tokens give it has the same markets. */
  lemma NamedKeepsLegs(naming: Naming, records: Records, w: ArbWatch)
    requires naming.Injective() && AllNamed(naming, records) && w.Keyed() && naming.NamesWatch(w)
    ensures KeepsLegs(records, w)
    ensures w.cid in records ==>
              && records[w.cid].anchor.marketKey == w.anchor.marketKey
              && records[w.cid].matched.marketKey == w.matched.marketKey
  {
  }

  /**
   An id that is not derived from its tokens can be registered again with another anchor market, and leaves its old
   entry behind.
   */
  lemma ReRegistrationCanStrand(first: ArbWatch, second: ArbWatch)
    requires first.cid == second.cid
    requires !second.HasLeg(first.anchor.marketKey)
    ensures DualIndex(Register(map[], first), map[first.cid := first])
    ensures !DualIndex(Register(Register(map[], first), second), map[first.cid := first][second.cid := second])
  {
    var none: Records := map[];
    assert DualIndex(map[], none);
    RegisterKeepsIndexIff(map[], none, first);
    assert none[first.cid := first] == map[first.cid := first];
    RegisterKeepsIndexIff(Register(map[], first), map[first.cid := first], second);
  }

  // ---- removal ----

  function DropWatcher(registry: Registry, m: MarketKey, c: Cid): Registry {
    if m !in registry then registry
    else if registry[m] - {c} == {} then registry - {m}
    else registry[m := registry[m] - {c}]
  }

  /** Every entry without its `gone` watchers; entries left empty are dropped. */
  ghost predicate Erased(before: Registry, after: Registry, gone: set<Cid>) {
    forall m ::
      && (m in after <==> m in before && !(before[m] <= gone))
      && (m in after ==> after[m] == before[m] - gone)
  }

  /** Dropping an id leg by leg erases it everywhere and keeps the indexes in step. */
  lemma DropKeepsIndex(registry: Registry, records: Records, c: Cid)
    requires DualIndex(registry, records) && c in records
    ensures var w := records[c];
            var after := DropWatcher(DropWatcher(registry, w.anchor.marketKey, c), w.matched.marketKey, c);
            Erased(registry, after, {c}) && DualIndex(after, records - {c})
  {
    var w := records[c];
    var after := DropWatcher(DropWatcher(registry, w.anchor.marketKey, c), w.matched.marketKey, c);
    forall m
      ensures m in after <==> m in registry && !(registry[m] <= {c})
      ensures m in after ==> after[m] == registry[m] - {c}
    {
      assert Indexed(registry, m, c) <==> w.HasLeg(m);
      if m in registry {
        assert registry[m] <= {c} <==> registry[m] - {c} == {};
        assert !w.HasLeg(m) ==> registry[m] - {c} == registry[m];
      }
    }
    ErasedKeepsIndex(registry, records, after, {c});
  }

  lemma ErasedKeepsIndex(registry: Registry, records: Records, after: Registry, gone: set<Cid>)
    requires DualIndex(registry, records) && Erased(registry, after, gone)
    ensures DualIndex(after, records - gone)
  {
    forall m | m in after ensures after[m] != {} {
      var c :| c in registry[m] && c !in gone;
      assert c in after[m];
    }
    forall m, c ensures Indexed(after, m, c) <==> Watches(records - gone, c, m) {
      assert Indexed(registry, m, c) <==> Watches(records, c, m);
    }
  }

  lemma ErasedTwice(before: Registry, middle: Registry, after: Registry, first: set<Cid>, second: set<Cid>)
    requires Erased(before, middle, first) && Erased(middle, after, second)
    ensures Erased(before, after, first + second)
  {
    forall m
      ensures m in after <==> m in before && !(before[m] <= first + second)
      ensures m in after ==> after[m] == before[m] - (first + second)
    {
      if m in middle {
        assert middle[m] <= second <==> before[m] <= first + second;
      }
    }
  }

  /** Once all its watchers are erased, a market is gone from both indexes. */
  lemma ErasedMarketIsGone(registry: Registry, records: Records, after: Registry, m: MarketKey)
    requires DualIndex(registry, records) && m in registry && Erased(registry, after, registry[m])
    ensures m !in after
    ensures records - registry[m] == map c | c in records && !records[c].HasLeg(m) :: records[c]
  {
    forall c | c in records ensures c in registry[m] <==> records[c].HasLeg(m) {
      assert Indexed(registry, m, c) <==> Watches(records, c, m);
    }
  }
}
