/** The batch similarity search that turns markets into discovery events (`src/vector_store.rs`). */
module VectorStore {
  import opened Wrappers

  datatype Payload = Payload(uuid: string, marketId: string, question: string, outcome: string)

  type Vector = seq<real>

  datatype Filter = Filter(category: string, subcategory: string, otherThan: int)

  /** A market to search for, with the filter it is searched under. */
  datatype Item = Item(payload: Payload, filter: Option<Filter>)

  /** A scored point of an answer; `market` is absent when its stored payload does not decode. */
  datatype ScoredPoint = ScoredPoint(score: real, market: Option<string>)

  datatype Query = Query(vector: Vector, filter: Option<Filter>)

  datatype Point = Point(payload: Payload, vector: Vector)

  /** A discovery event: `seed` is what its correlation id is hashed from. */
  datatype Event = Event(seed: string, anchor: Payload, matches: seq<ScoredPoint>)

  datatype Failure = EmbeddingFailed | SearchFailed | Misaligned | InsertFailed | Undecodable

  /** The text a market is embedded by. */
  function QuestionVector(p: Payload): string {
    "Question: " + p.question + " Possible outcomes: " + p.outcome
  }

  function Texts(items: seq<Item>): seq<string> {
    seq(|items|, i requires 0 <= i < |items| => QuestionVector(items[i].payload))
  }

  /** The items that pass validation, in order. */
  function ValidItems(values: seq<Item>, valid: Payload -> bool): seq<Item> {
    if values == [] then []
    else
      ValidItems(values[..|values| - 1], valid)
        + if valid(values[|values| - 1].payload) then [values[|values| - 1]] else []
  }

  /** `kept` lists, in order, the indexes of the valid inputs, and `items` is what stands there. */
  ghost predicate ValidOnes(values: seq<Item>, valid: Payload -> bool, kept: seq<nat>, items: seq<Item>) {
    && |kept| == |items|
    && (forall i :: 0 <= i < |kept| ==> kept[i] < |values| && items[i] == values[kept[i]])
    && (forall i, j :: 0 <= i < j < |kept| ==> kept[i] < kept[j])
    && (forall j: nat :: j < |values| ==> (j in kept <==> valid(values[j].payload)))
  }

  /** Exactly the valid inputs are kept, in order. */
  lemma {:induction false} ValidItemsAreThose(values: seq<Item>, valid: Payload -> bool) returns (kept: seq<nat>)
    ensures ValidOnes(values, valid, kept, ValidItems(values, valid))
  {
    kept := [];
    if values != [] {
      var n := |values| - 1;
      kept := ValidItemsAreThose(values[..n], valid);
      assert ValidItems(values[..n], valid) + [] == ValidItems(values[..n], valid);
      ValidOneMore(values, valid, kept, ValidItems(values[..n], valid));
      if valid(values[n].payload) {
        kept := kept + [n];
      }
    }
  }

  lemma ValidOneMore(values: seq<Item>, valid: Payload -> bool, kept: seq<nat>, items: seq<Item>)
    requires values != [] && ValidOnes(values[..|values| - 1], valid, kept, items)
    ensures var n := |values| - 1;
            if valid(values[n].payload) then ValidOnes(values, valid, kept + [n], items + [values[n]])
            else ValidOnes(values, valid, kept, items)
  {
    var n := |values| - 1;
    assert forall j: nat :: j < n ==> values[..n][j] == values[j];
    assert forall j: nat :: j in kept + [n] <==> j in kept || j == n;
  }

  function EventFor(payload: Payload, matches: seq<ScoredPoint>): Event {
    Event(payload.uuid + ":" + payload.marketId, payload, matches)
  }

  predicate Decodable(matches: seq<ScoredPoint>) {
    forall i :: 0 <= i < |matches| ==> matches[i].market.Some?
  }

  // ---- the pipeline's promise ----

  /**
   `answered` lists, in order, the items with a non-empty response, and each event is built from its own item and
   response.
   */
  ghost predicate Aligned(items: seq<Item>, responses: seq<seq<ScoredPoint>>, answered: seq<nat>, events: seq<Event>)
    requires |items| == |responses|
  {
    && |answered| == |events|
    && (forall k :: 0 <= k < |answered| ==>
          answered[k] < |items| && events[k] == EventFor(items[answered[k]].payload, responses[answered[k]]))
    && (forall k, l :: 0 <= k < l < |answered| ==> answered[k] < answered[l])
    && (forall i: nat :: i < |items| ==> (i in answered <==> responses[i] != []))
  }

  /** The queries are each item's own vector under its own filter. */
  ghost predicate OwnQueries(items: seq<Item>, vectors: seq<Vector>, queries: seq<Query>) {
    && |queries| == (if |vectors| <= |items| then |vectors| else |items|)
    && forall i :: 0 <= i < |queries| ==> queries[i] == Query(vectors[i], items[i].filter)
  }

  /** The points are each item's own payload with its own vector. */
  ghost predicate OwnPoints(items: seq<Item>, vectors: seq<Vector>, points: seq<Point>) {
    && |points| == (if |vectors| <= |items| then |vectors| else |items|)
    && forall i :: 0 <= i < |points| ==> points[i] == Point(items[i].payload, vectors[i])
  }

  /** The store's client: what it embeds, what it answers, and which chunks of points it accepts. */
  datatype Backend = Backend(
    embed: seq<string> -> Option<seq<Vector>>,
    search: seq<Query> -> Option<seq<seq<ScoredPoint>>>,
    accepts: seq<Point> -> bool)

  /** The embeddings used: none are asked for when there is nothing to embed. */
  function Embeddings(backend: Backend, items: seq<Item>): Option<seq<Vector>> {
    if items == [] then Some([]) else backend.embed(Texts(items))
  }

  const MIN_CHUNK := 2_000

  /** Points go to the store in chunks of at least two thousand. */
  function ChunkSize(asked: nat): nat {
    if asked < MIN_CHUNK then MIN_CHUNK else asked
  }

  /** The chunk that starts at `from`. */
  function ChunkAt(points: seq<Point>, size: nat, from: nat): seq<Point>
    requires from <= |points|
  {
    points[from..if from + size <= |points| then from + size else |points|]
  }

  /** How many points end up stored, from `from` on: chunk by chunk until one is refused. */
  function StoredUpTo(backend: Backend, points: seq<Point>, size: nat, from: nat): (n: nat)
    requires 0 < size && from <= |points|
    ensures from <= n <= |points|
    decreases |points| - from
  {
    if from == |points| || !backend.accepts(ChunkAt(points, size, from)) then from
    else StoredUpTo(backend, points, size, from + |ChunkAt(points, size, from)|)
  }

  /**
   Everything is stored exactly when every chunk is accepted; otherwise whole chunks are, and the next was refused.
   */
  lemma {:induction false} StoredIsAllOrChunks(backend: Backend, points: seq<Point>, size: nat, k: nat)
    requires 0 < size && k * size <= |points|
    ensures var stored := StoredUpTo(backend, points, size, k * size);
            && k * size <= stored <= |points|
            && (stored < |points| ==>
                  && !backend.accepts(ChunkAt(points, size, stored))
                  && exists j: nat :: k <= j && stored == j * size)
            && forall j: nat :: k <= j && j * size < stored ==> backend.accepts(ChunkAt(points, size, j * size))
    decreases |points| - k * size
  {
    var from := k * size;
    if from < |points| && backend.accepts(ChunkAt(points, size, from)) {
      assert (k + 1) * size == from + size;
      if from + size <= |points| {
        StoredIsAllOrChunks(backend, points, size, k + 1);
      } else {
        assert StoredUpTo(backend, points, size, from) == StoredUpTo(backend, points, size, |points|) == |points|;
      }
      forall j: nat | k < j && from + size > |points| ensures j * size > |points| {
        assert j * size >= (k + 1) * size by {
          Multiples(k + 1, j, size);
        }
      }
    } else {
      forall j: nat | k <= j ensures j * size >= from {
        Multiples(k, j, size);
      }
    }
  }

  lemma Multiples(i: nat, j: nat, size: nat)
    requires i <= j
    ensures i * size <= j * size
  {
    assert 0 <= (j - i) * size;
  }

  /** Chunks hold two thousand points, or more if asked. */
  lemma ChunksAreLarge(asked: nat)
    ensures ChunkSize(asked) >= 2_000 && ChunkSize(asked) >= asked && ChunkSize(asked) in {2_000, asked}
  {
  }

  // ---- the loops ----

  method Convert(values: seq<Item>, valid: Payload -> bool) returns (items: seq<Item>)
    ensures items == ValidItems(values, valid)
  {
    items := [];
    for i := 0 to |values|
      invariant items == ValidItems(values[..i], valid)
    {
      assert values[..i + 1][..i] == values[..i];
      if valid(values[i].payload) {
        items := items + [values[i]];
      }
    }
    assert values[..|values|] == values;
  }

  /** Zips items with embeddings; whichever is longer is cut. */
  method CreatePoints(items: seq<Item>, vectors: seq<Vector>) returns (points: seq<Point>)
    ensures OwnPoints(items, vectors, points)
  {
    points := [];
    var i := 0;
    while i < |items| && i < |vectors|
      invariant i == |points| <= |items| && i <= |vectors|
      invariant forall k :: 0 <= k < i ==> points[k] == Point(items[k].payload, vectors[k])
    {
      points := points + [Point(items[i].payload, vectors[i])];
      i := i + 1;
    }
  }

  /** Zips the points' vectors with the filters. */
  method BuildQueries(items: seq<Item>, points: seq<Point>) returns (queries: seq<Query>)
    requires |points| <= |items|
    ensures |queries| == |points|
    ensures forall i :: 0 <= i < |queries| ==> queries[i] == Query(points[i].vector, items[i].filter)
  {
    queries := [];
    for i := 0 to |points|
      invariant |queries| == i
      invariant forall k :: 0 <= k < i ==> queries[k] == Query(points[k].vector, items[k].filter)
    {
      queries := queries + [Query(points[i].vector, items[i].filter)];
    }
  }

  /** One event per non-empty response, in order; one that does not decode fails the batch. */
  method BuildEvents(items: seq<Item>, responses: seq<seq<ScoredPoint>>)
    returns (r: Result<seq<Event>, Failure>, answered: seq<nat>)
    requires |items| == |responses|
    ensures r.Ok? ==> Aligned(items, responses, answered, r.value)
    ensures r.Ok? <==> forall i, j :: 0 <= i < |responses| && 0 <= j < |responses[i]| ==> responses[i][j].market.Some?
    ensures r.Err? ==> r.error == Undecodable
  {
    var events := [];
    answered := [];
    for i := 0 to |items|
      invariant Aligned(items[..i], responses[..i], answered, events)
      invariant forall k :: 0 <= k < i ==> Decodable(responses[k])
    {
      AlignedOneMore(items, responses, i, answered, events);
      if responses[i] != [] {
        if !Decodable(responses[i]) {
          return Err(Undecodable), answered;
        }
        events := events + [EventFor(items[i].payload, responses[i])];
        answered := answered + [i];
      }
    }
    assert items[..|items|] == items && responses[..|items|] == responses;
    r := Ok(events);
  }

  lemma AlignedOneMore(items: seq<Item>, responses: seq<seq<ScoredPoint>>, i: nat, answered: seq<nat>,
                       events: seq<Event>)
    requires |items| == |responses| && i < |items|
    requires Aligned(items[..i], responses[..i], answered, events)
    ensures if responses[i] == []
            then Aligned(items[..i + 1], responses[..i + 1], answered, events)
            else Aligned(items[..i + 1], responses[..i + 1], answered + [i],
                         events + [EventFor(items[i].payload, responses[i])])
  {
    forall j: nat | j < i ensures items[..i + 1][j] == items[..i][j] && responses[..i + 1][j] == responses[..i][j] {
    }
    assert forall j: nat :: j in answered + [i] <==> j in answered || j == i;
  }

  /** Stores the points chunk by chunk. A refused chunk fails the insert, and the chunks before it stay. */
  method InsertMany(points: seq<Point>, chunkSize: nat, backend: Backend) returns (ok: bool, stored: seq<Point>)
    ensures stored == points[..StoredUpTo(backend, points, ChunkSize(chunkSize), 0)]
    ensures ok <==> stored == points
  {
    stored := [];
    var size := ChunkSize(chunkSize);
    while |stored| < |points|
      invariant |stored| <= |points| && stored == points[..|stored|]
      invariant StoredUpTo(backend, points, size, 0) == StoredUpTo(backend, points, size, |stored|)
    {
      var chunk := ChunkAt(points, size, |stored|);
      if !backend.accepts(chunk) {
        return false, stored;
      }
      stored := stored + chunk;
    }
    ok := true;
  }

  /**
   The batch: convert, embed, search, check the counts, insert, build events. A success with events answers every
   valid input from its own response. Nothing is stored unless the counts agree; a failed insert leaves whole chunks.
   */
  method MultipleSearchAndInsert(values: seq<Item>, valid: Payload -> bool, chunkSize: nat, backend: Backend)
    returns (r: Result<seq<Event>, Failure>, answered: seq<nat>, stored: seq<Point>)
    ensures Batched(values, valid, chunkSize, backend, r, answered, stored)
  {
    stored, answered := [], [];
    var items := Convert(values, valid);
    var vectors := Embeddings(backend, items);
    if vectors.None? {
      return Err(EmbeddingFailed), answered, stored;
    }
    var points := CreatePoints(items, vectors.value);
    var queries := BuildQueries(items, points);
    assert OwnQueries(items, vectors.value, queries);
    var responses := backend.search(queries);
    if responses.None? {
      return Err(SearchFailed), answered, stored;
    }
    if responses.value == [] {
      return Ok([]), answered, stored;
    }
    if |items| != |responses.value| {
      return Err(Misaligned), answered, stored;
    }
    var ok;
    ok, stored := InsertMany(points, chunkSize, backend);
    if !ok {
      return Err(InsertFailed), answered, stored;
    }
    r, answered := BuildEvents(items, responses.value);
  }

  /** What the batch comes to: a failed embedding, or what the answer to its queries makes of it. */
  ghost predicate Batched(values: seq<Item>, valid: Payload -> bool, chunkSize: nat, backend: Backend,
                          r: Result<seq<Event>, Failure>, answered: seq<nat>, stored: seq<Point>) {
    var items := ValidItems(values, valid);
    var vectors := Embeddings(backend, items);
    && (vectors.None? ==> r == Err(EmbeddingFailed) && stored == [])
    && (vectors.Some? ==>
          exists queries ::
            && OwnQueries(items, vectors.value, queries)
            && Answers(items, vectors.value, chunkSize, backend, backend.search(queries), r, answered, stored))
  }

  /** What the batch returns and stores, from the answer to its queries. */
  ghost predicate Answers(items: seq<Item>, vectors: seq<Vector>, chunkSize: nat, backend: Backend,
                          responses: Option<seq<seq<ScoredPoint>>>,
                          r: Result<seq<Event>, Failure>, answered: seq<nat>, stored: seq<Point>) {
    if responses.None? then r == Err(SearchFailed) && stored == []
    else if responses.value == [] then r == Ok([]) && stored == []
    else if |responses.value| != |items| then r == Err(Misaligned) && stored == []
    else
      exists points ::
        && OwnPoints(items, vectors, points)
        && stored == points[..StoredUpTo(backend, points, ChunkSize(chunkSize), 0)]
        && if stored != points then r == Err(InsertFailed)
           else
             && (r.Ok? ==> Aligned(items, responses.value, answered, r.value))
             && (r.Err? ==>
                   && r.error == Undecodable
                   && exists i :: 0 <= i < |responses.value| && !Decodable(responses.value[i]))
  }

  // ---- against a positional search and embedding ----

  /** One answer per query, each that of its own query. */
  ghost predicate Positional(backend: Backend, find: Query -> seq<ScoredPoint>) {
    forall queries {:trigger backend.search(queries)} ::
      backend.search(queries).Some? ==>
        |backend.search(queries).value| == |queries|
        && forall i :: 0 <= i < |queries| ==> backend.search(queries).value[i] == find(queries[i])
  }

  /**
   With a search that answers query by query: either the batch fails, or it emits nothing, or the embeddings were all
   there and every event is its item's own payload with the finds of its own vector under its own filter. A short
   embedding list never gets that far.
   */
  lemma BatchIsAligned(items: seq<Item>, vectors: seq<Vector>, chunkSize: nat, backend: Backend,
                       find: Query -> seq<ScoredPoint>,
                       queries: seq<Query>, r: Result<seq<Event>, Failure>, answered: seq<nat>, stored: seq<Point>)
    requires Positional(backend, find) && OwnQueries(items, vectors, queries)
    requires Answers(items, vectors, chunkSize, backend, backend.search(queries), r, answered, stored)
    ensures r.Ok? && r.value != [] ==>
              && |vectors| >= |items| && |stored| == |items|
              && |answered| == |r.value|
              && (forall k :: 0 <= k < |answered| ==>
                    && answered[k] < |items|
                    && var item := items[answered[k]];
                       r.value[k] == EventFor(item.payload, find(Query(vectors[answered[k]], item.filter))))
              && (forall i: nat :: i < |items| ==> (i in answered <==> find(Query(vectors[i], items[i].filter)) != []))
    ensures |vectors| < |items| ==> stored == [] && (r.Err? || r == Ok([]))
    ensures 0 < |vectors| < |items| && backend.search(queries).Some? ==> r == Err(Misaligned)
  {
  }

  /** The embedding model gives one vector a text, each that of its own text. */
  ghost predicate Embeds(backend: Backend, vec: string -> Vector) {
    forall texts {:trigger backend.embed(texts)} ::
      backend.embed(texts).Some? ==>
        |backend.embed(texts).value| == |texts|
        && forall i :: 0 <= i < |texts| ==> backend.embed(texts).value[i] == vec(texts[i])
  }

  /** The vector of a market's own text: its question and its outcomes. */
  function VectorOf(vec: string -> Vector, p: Payload): Vector {
    vec("Question: " + p.question + " " + "Possible outcomes: " + p.outcome)
  }

  lemma EmbeddingsAreOwn(backend: Backend, vec: string -> Vector, items: seq<Item>)
    requires Embeds(backend, vec) && Embeddings(backend, items).Some?
    ensures var vectors := Embeddings(backend, items).value;
            |vectors| == |items| && forall i :: 0 <= i < |items| ==> vectors[i] == VectorOf(vec, items[i].payload)
  {
    forall i | 0 <= i < |items|
      ensures "Question: " + items[i].payload.question + " " + "Possible outcomes: " + items[i].payload.outcome
              == Texts(items)[i]
    {
      TextParts(items[i].payload);
    }
  }

  /** With nothing to embed the model is not asked, and cannot fail. */
  lemma NothingToEmbed(backend: Backend)
    ensures Embeddings(backend, []) == Some([])
  {
  }

  lemma TextParts(p: Payload)
    ensures QuestionVector(p) == "Question: " + p.question + " " + "Possible outcomes: " + p.outcome
  {
    assert " Possible outcomes: " == " " + "Possible outcomes: ";
  }

  /** An event of the batch: the payload of a valid input, under the hash seed of that input, with its own finds. */
  predicate OwnEvent(e: Event, item: Item, matches: seq<ScoredPoint>) {
    && e.anchor == item.payload && e.matches == matches
    && e.seed == item.payload.uuid + ":" + item.payload.marketId
  }

  /**
   The batch as its callers see it, with a model that embeds text by text and a search that answers query by query:
   every event is a valid input's own payload with the finds of the vector of its own text under its own filter, every
   valid input with a find has its event, and every stored point carries the vector of its own text.
   */
  lemma BatchIsOwn(values: seq<Item>, valid: Payload -> bool, chunkSize: nat, backend: Backend,
                   vec: string -> Vector, find: Query -> seq<ScoredPoint>,
                   r: Result<seq<Event>, Failure>, answered: seq<nat>, stored: seq<Point>)
    requires Positional(backend, find) && Embeds(backend, vec)
    requires Batched(values, valid, chunkSize, backend, r, answered, stored)
    ensures var items := ValidItems(values, valid);
            && (r.Ok? && r.value != [] ==>
                  && |answered| == |r.value|
                  && (forall k :: 0 <= k < |answered| ==>
                        && answered[k] < |items|
                        && var item := items[answered[k]];
                           OwnEvent(r.value[k], item, find(Query(VectorOf(vec, item.payload), item.filter))))
                  && (forall i: nat :: i < |items| ==>
                        (i in answered <==> find(Query(VectorOf(vec, items[i].payload), items[i].filter)) != [])))
            && |stored| <= |items|
            && forall i :: 0 <= i < |stored| ==> stored[i] == Point(items[i].payload, VectorOf(vec, items[i].payload))
  {
    var items := ValidItems(values, valid);
    if Embeddings(backend, items).Some? {
      var vectors := Embeddings(backend, items).value;
      EmbeddingsAreOwn(backend, vec, items);
      var queries :| OwnQueries(items, vectors, queries)
        && Answers(items, vectors, chunkSize, backend, backend.search(queries), r, answered, stored);
      BatchIsAligned(items, vectors, chunkSize, backend, find, queries, r, answered, stored);
    }
  }
}
