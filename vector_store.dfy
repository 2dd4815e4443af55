/** The part of a Qdrant collection the two vector layers rely on: points
    with an id, the text whose embedding is their vector, and a payload;
    `search` with a limit and a score threshold; and `upsert`.
    Embedding and cosine similarity are opaque: an `Embedder` says which
    texts the model accepts and how similar two texts' embeddings are. */
module VectorStore {
  import opened Common

  datatype Point<P> = Point(id: string, text: string, payload: P)

  /** A search result: a stored point and its similarity to the query. */
  datatype Hit<P> = Hit(point: Point<P>, score: int)

  datatype Embedder = Embedder(accepts: string -> bool, similarity: (string, string) -> int)

  ghost predicate Descending<P(!new)>(hits: seq<Hit<P>>) {
    forall i, j :: 0 <= i < j < |hits| ==> hits[i].score >= hits[j].score
  }

  /** Every stored point with its similarity to the query. */
  function Scored<P(!new)>(points: seq<Point<P>>, e: Embedder, query: string): (r: seq<Hit<P>>)
    ensures forall h :: h in r <==> h.point in points && h.score == e.similarity(query, h.point.text)
  {
    var r := seq(|points|, i requires 0 <= i < |points| => Hit(points[i], e.similarity(query, points[i].text)));
    assert forall p :: p in points ==> Hit(p, e.similarity(query, p.text)) in r by {
      forall p | p in points ensures Hit(p, e.similarity(query, p.text)) in r {
        var i :| 0 <= i < |points| && points[i] == p;
        assert r[i] == Hit(p, e.similarity(query, p.text));
      }
    }
    r
  }

  /** The hits whose score reaches the threshold, in their original order. */
  function AtLeast<P(!new)>(hits: seq<Hit<P>>, threshold: int): (r: seq<Hit<P>>)
    ensures forall h :: h in r <==> h in hits && h.score >= threshold
  {
    if |hits| == 0 then []
    else
      var rest := AtLeast(hits[1..], threshold);
      assert forall h :: h in hits <==> h == hits[0] || h in hits[1..];
      if hits[0].score >= threshold then [hits[0]] + rest else rest
  }

  /** Inserts a hit before the first one that does not score higher, so that
      among equal scores the earlier stored point comes first. */
  function Insert<P(!new)>(h: Hit<P>, sorted: seq<Hit<P>>): (r: seq<Hit<P>>)
    ensures multiset(r) == multiset(sorted) + multiset{h}
  {
    if |sorted| == 0 || sorted[0].score <= h.score then [h] + sorted
    else
      assert sorted == [sorted[0]] + sorted[1..];
      [sorted[0]] + Insert(h, sorted[1..])
  }

  lemma {:induction false} InsertDescending<P(!new)>(h: Hit<P>, sorted: seq<Hit<P>>)
    requires Descending(sorted)
    ensures Descending(Insert(h, sorted))
  {
    if |sorted| > 0 && sorted[0].score > h.score {
      InsertDescending(h, sorted[1..]);
      var rest := Insert(h, sorted[1..]);
      forall j | 0 <= j < |rest| ensures rest[j].score <= sorted[0].score {
        assert rest[j] in multiset(rest);
        if rest[j] != h {
          assert rest[j] in multiset(sorted[1..]);
          var k :| 0 <= k < |sorted[1..]| && sorted[1..][k] == rest[j];
          assert sorted[k + 1] == rest[j];
        }
      }
    }
  }

  /** The hits ordered by descending score (a stable insertion sort). */
  function Ranked<P(!new)>(hits: seq<Hit<P>>): (r: seq<Hit<P>>)
    ensures multiset(r) == multiset(hits)
    ensures Descending(r)
  {
    if |hits| == 0 then []
    else
      assert hits == [hits[0]] + hits[1..];
      var rest := Ranked(hits[1..]);
      InsertDescending(hits[0], rest);
      Insert(hits[0], rest)
  }

  /** The points a search may return, best first. */
  function Candidates<P(!new)>(points: seq<Point<P>>, e: Embedder, query: string, threshold: int): (r: seq<Hit<P>>)
    ensures Descending(r)
    ensures forall h :: h in r <==> h.point in points && h.score == e.similarity(query, h.point.text) && h.score >= threshold
  {
    var hits := AtLeast(Scored(points, e, query), threshold);
    var r := Ranked(hits);
    assert forall h :: h in r <==> h in hits by {
      forall h ensures h in r <==> h in hits {
        assert h in r <==> h in multiset(r);
        assert h in hits <==> h in multiset(hits);
      }
    }
    r
  }

  /** Qdrant's `search(query_vector, limit, score_threshold)`: the stored
      points scoring at least the threshold, best first, at most `limit`. */
  function Search<P(!new)>(points: seq<Point<P>>, e: Embedder, query: string, limit: int, threshold: int): (r: seq<Hit<P>>)
    ensures |r| <= if limit > 0 then limit else 0
    ensures forall i :: 0 <= i < |r| ==>
      r[i].point in points && r[i].score == e.similarity(query, r[i].point.text) && r[i].score >= threshold
    ensures Descending(r)
    ensures forall p :: p in points && e.similarity(query, p.text) >= threshold && limit > 0 && Hit(p, e.similarity(query, p.text)) !in r ==>
      |r| == limit && e.similarity(query, p.text) <= r[|r| - 1].score
    ensures |r| > 0 ==> forall p :: p in points ==> e.similarity(query, p.text) <= r[0].score
    ensures limit > 0 && |r| == 0 ==> forall p :: p in points ==> e.similarity(query, p.text) < threshold
  {
    var all := Candidates(points, e, query, threshold);
    var n := if limit <= 0 then 0 else if limit < |all| then limit else |all|;
    SearchPrefix(points, e, query, threshold, all, n);
    SearchComplete(points, e, query, threshold, all, n);
    SearchBest(points, e, query, threshold, all, n);
    all[..n]
  }

  /** Every prefix of the candidates holds scored points that pass, best first. */
  lemma SearchPrefix<P(!new)>(points: seq<Point<P>>, e: Embedder, query: string, threshold: int, all: seq<Hit<P>>, n: nat)
    requires all == Candidates(points, e, query, threshold) && n <= |all|
    ensures forall i :: 0 <= i < n ==>
      all[..n][i].point in points && all[..n][i].score == e.similarity(query, all[..n][i].point.text) && all[..n][i].score >= threshold
    ensures Descending(all[..n])
  {
    forall i | 0 <= i < n
      ensures all[..n][i].point in points && all[..n][i].score == e.similarity(query, all[..n][i].point.text)
      ensures all[..n][i].score >= threshold
    {
      assert all[..n][i] == all[i] && all[i] in all;
    }
  }

  lemma {:induction false} SearchComplete<P(!new)>(points: seq<Point<P>>, e: Embedder, query: string, threshold: int, all: seq<Hit<P>>, n: nat)
    requires all == Candidates(points, e, query, threshold) && n <= |all|
    ensures forall p :: p in points && e.similarity(query, p.text) >= threshold && Hit(p, e.similarity(query, p.text)) !in all[..n] ==>
      n < |all| && (n > 0 ==> e.similarity(query, p.text) <= all[n - 1].score)
  {
    forall p | p in points && e.similarity(query, p.text) >= threshold && Hit(p, e.similarity(query, p.text)) !in all[..n]
      ensures n < |all| && (n > 0 ==> e.similarity(query, p.text) <= all[n - 1].score)
    {
      var h := Hit(p, e.similarity(query, p.text));
      assert h in all;
      var j :| 0 <= j < |all| && all[j] == h;
    }
  }

  lemma {:induction false} SearchBest<P(!new)>(points: seq<Point<P>>, e: Embedder, query: string, threshold: int, all: seq<Hit<P>>, n: nat)
    requires all == Candidates(points, e, query, threshold) && n <= |all|
    ensures n > 0 ==> forall p :: p in points ==> e.similarity(query, p.text) <= all[0].score
    ensures n == 0 && |all| == 0 ==> forall p :: p in points ==> e.similarity(query, p.text) < threshold
  {
    forall p | p in points && n > 0 ensures e.similarity(query, p.text) <= all[0].score {
      var h := Hit(p, e.similarity(query, p.text));
      if h.score >= threshold {
        assert h in all;
      } else {
        assert all[0] in all;
      }
    }
    forall p | p in points && |all| == 0 ensures e.similarity(query, p.text) < threshold {
      var h := Hit(p, e.similarity(query, p.text));
      assert h !in all;
    }
  }

  function Ids<P(!new)>(points: seq<Point<P>>): set<string> {
    set i | 0 <= i < |points| :: points[i].id
  }

  /** The points whose id is not in `ids`, in their stored order. */
  function Without<P(!new)>(points: seq<Point<P>>, ids: set<string>): (r: seq<Point<P>>)
    ensures forall p :: p in r <==> p in points && p.id !in ids
  {
    if |points| == 0 then []
    else
      var rest := Without(points[1..], ids);
      assert forall p :: p in points <==> p == points[0] || p in points[1..];
      if points[0].id in ids then rest else [points[0]] + rest
  }

  /** Qdrant's `upsert`: a point whose id is already stored is replaced,
      the others are added. */
  function Upsert<P(!new)>(points: seq<Point<P>>, batch: seq<Point<P>>): (r: seq<Point<P>>)
    ensures forall p :: p in r <==> (p in points && p.id !in Ids(batch)) || p in batch
  {
    Without(points, Ids(batch)) + batch
  }

  lemma {:induction false} WithoutNone<P(!new)>(points: seq<Point<P>>, ids: set<string>)
    requires forall i :: 0 <= i < |points| ==> points[i].id !in ids
    ensures Without(points, ids) == points
  {
    if |points| > 0 {
      WithoutNone(points[1..], ids);
      assert points == [points[0]] + points[1..];
    }
  }

  /** A point with an id no stored point has is simply appended: existing
      points are never modified. */
  lemma {:induction false} UpsertFresh<P(!new)>(points: seq<Point<P>>, batch: seq<Point<P>>)
    requires Ids(points) !! Ids(batch)
    ensures Upsert(points, batch) == points + batch
  {
    forall i | 0 <= i < |points| ensures points[i].id !in Ids(batch) {
      assert points[i].id in Ids(points);
    }
    WithoutNone(points, Ids(batch));
  }

  /** `_initialize_collection`: creates the collection when the server is
      reachable and the collection absent; an unreachable server is reported
      and changes nothing. */
  function Initialized<P>(online: bool, c: Option<seq<Point<P>>>): (r: Option<seq<Point<P>>>)
    ensures r.Some? <==> online || c.Some?
    ensures c.Some? ==> r == c
    ensures online && c.None? ==> r == Some([])
    ensures !online ==> r == c
  {
    if online && c.None? then Some([]) else c
  }

  /** Creating the collection a second time changes nothing. */
  lemma InitializedIdempotent<P>(online: bool, c: Option<seq<Point<P>>>)
    ensures Initialized(online, Initialized(online, c)) == Initialized(online, c)
  {
  }

  /** `clear_all`: `delete_collection` then `_initialize_collection`; on a
      reachable server the collection exists and is empty afterwards, on an
      unreachable one the error is reported and nothing changes. */
  function Recreated<P>(online: bool, c: Option<seq<Point<P>>>): (r: Option<seq<Point<P>>>)
    ensures online ==> r == Some([])
    ensures !online ==> r == c
  {
    if online then Initialized(online, None) else c
  }

  /** `upsert` through the client: applied when the server is reachable and
      the collection exists; otherwise the call raises and nothing changes. */
  function Upserted<P(!new)>(online: bool, c: Option<seq<Point<P>>>, batch: seq<Point<P>>): (r: Option<seq<Point<P>>>)
    ensures r.Some? <==> c.Some?
    ensures !online ==> r == c
    ensures online && c.Some? ==>
      forall p :: p in r.value <==> (p in c.value && p.id !in Ids(batch)) || p in batch
  {
    if online && c.Some? then Some(Upsert(c.value, batch)) else c
  }
}
