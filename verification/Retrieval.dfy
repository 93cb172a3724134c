/** The fusion of the results of the two indexes, and the search over both. */
module Retrieval {
  import opened Wrappers
  import opened Ranking
  import opened Indexing

  // ---------------------------------------------------------------------------------------------
  // Fusion
  // ---------------------------------------------------------------------------------------------

  /** How a chunk matches the query, as far as reranking looks. */
  datatype Features = Features(
    matchedTerms: nat, exactIdentifier: bool, symbolMatch: bool, testRole: bool, pathMatch: bool)

  function Rerank(f: Features): (bonus: real)
    ensures 0.0 <= bonus <= 0.34
  {
    (if f.matchedTerms < 8 then f.matchedTerms else 8) as real * 0.015
    + (if f.exactIdentifier then 0.08 else 0.0)
    + (if f.symbolMatch then 0.06 else 0.0)
    + (if f.testRole then 0.05 else 0.0)
    + (if f.pathMatch then 0.03 else 0.0)
  }

  /** The one-based ranks at which the two searches returned a chunk. */
  datatype Sources = Sources(lexical: Option<nat>, semantic: Option<nat>)

  function Reciprocal(rank: Option<nat>): real {
    if rank.Some? && rank.value != 0 then 1.0 / (60 + rank.value) as real else 0.0
  }

  function FinalScore(sources: Sources, f: Features): real {
    Reciprocal(sources.lexical) + Reciprocal(sources.semantic) + Rerank(f)
  }

  datatype Candidate = Candidate(id: ChunkId, sources: Sources, score: real)

  /** The last one-based position of an identifier in a result list. */
  function RankIn(results: seq<ChunkId>, id: ChunkId): Option<nat> {
    if results == [] then None
    else if results[|results| - 1] == id then Some(|results|)
    else RankIn(results[..|results| - 1], id)
  }

  function SourcesOf(lexical: seq<ChunkId>, semantic: seq<ChunkId>, id: ChunkId): Sources {
    Sources(RankIn(lexical, id), RankIn(semantic, id))
  }

  function FusedScore(lexical: seq<ChunkId>, semantic: seq<ChunkId>, features: ChunkId -> Features): ChunkId -> real {
    (id: ChunkId) => FinalScore(SourcesOf(lexical, semantic, id), features(id))
  }

  function Union(lexical: seq<ChunkId>, semantic: seq<ChunkId>): set<ChunkId> {
    Elements(lexical) + Elements(semantic)
  }

  function Ids(candidates: seq<Candidate>): seq<ChunkId> {
    seq(|candidates|, i requires 0 <= i < |candidates| => candidates[i].id)
  }

  /** The dictionary of sources: which list returned a chunk, and where. */
  method CollectSources(lexical: seq<ChunkId>, semantic: seq<ChunkId>) returns (byId: map<ChunkId, Sources>)
    ensures byId.Keys == Union(lexical, semantic)
    ensures forall id :: id in byId ==> byId[id] == SourcesOf(lexical, semantic, id)
  {
    byId := map[];
    for k := 0 to |lexical|
      invariant forall id :: id in byId <==> id in lexical[..k]
      invariant forall id :: id in byId ==> byId[id] == Sources(RankIn(lexical[..k], id), None)
    {
      assert lexical[..k + 1][..k] == lexical[..k];
      byId := byId[lexical[k] := Sources(Some(k + 1), None)];
    }
    assert lexical[..|lexical|] == lexical;
    for k := 0 to |semantic|
      invariant forall id :: id in byId <==> id in lexical || id in semantic[..k]
      invariant forall id :: id in byId ==> byId[id] == Sources(RankIn(lexical, id), RankIn(semantic[..k], id))
    {
      assert semantic[..k + 1][..k] == semantic[..k];
      var id := semantic[k];
      AbsentHasNoRank(lexical, id);
      var sources := if id in byId then byId[id] else Sources(None, None);
      byId := byId[id := sources.(semantic := Some(k + 1))];
    }
    assert semantic[..|semantic|] == semantic;
  }

  /** Merge the two result lists into one ranking of candidates. */
  method Merge(lexical: seq<ChunkId>, semantic: seq<ChunkId>, features: ChunkId -> Features)
    returns (results: seq<Candidate>)
    ensures IsRanking(Ids(results), Union(lexical, semantic), FusedScore(lexical, semantic, features))
    ensures forall c :: c in results ==>
      c == Candidate(c.id, SourcesOf(lexical, semantic, c.id), FusedScore(lexical, semantic, features)(c.id))
  {
    var byId := CollectSources(lexical, semantic);
    var score := SourceScore(byId, features);
    var ids := Rank(byId.Keys, score);
    results := [];
    for k := 0 to |ids|
      invariant Ids(results) == ids[..k]
      invariant forall c :: c in results ==> c.id in byId && c == Candidate(c.id, byId[c.id], score(c.id))
    {
      assert ids[k] in ids;
      results := results + [Candidate(ids[k], byId[ids[k]], score(ids[k]))];
    }
    assert ids[..|ids|] == ids;
    SameScoresSameRanking(ids, byId.Keys, score, FusedScore(lexical, semantic, features));
  }

  function SourceScore(byId: map<ChunkId, Sources>, features: ChunkId -> Features): ChunkId -> real {
    (id: ChunkId) => if id in byId then FinalScore(byId[id], features(id)) else 0.0
  }

  lemma SameScoresSameRanking(ids: seq<ChunkId>, of: set<ChunkId>, a: ChunkId -> real, b: ChunkId -> real)
    requires IsRanking(ids, of, a)
    requires forall id :: id in of ==> a(id) == b(id)
    ensures IsRanking(ids, of, b)
  {
    forall i, j | 0 <= i < j < |ids| ensures Precedes(b, ids[i], ids[j]) {
      assert ids[i] in ids && ids[j] in ids;
    }
  }

  lemma {:induction false} AbsentHasNoRank(results: seq<ChunkId>, id: ChunkId)
    ensures RankIn(results, id) == None <==> id !in results
    ensures RankIn(results, id).Some? ==> 1 <= RankIn(results, id).value <= |results|
  {
    if results != [] {
      var k := |results| - 1;
      AbsentHasNoRank(results[..k], id);
      assert results == results[..k] + [results[k]];
    }
  }

  // ---------------------------------------------------------------------------------------------
  // What decides the order
  // ---------------------------------------------------------------------------------------------

  lemma ReciprocalBounds(rank: Option<nat>)
    ensures 0.0 <= Reciprocal(rank) <= 1.0 / 61.0
    ensures rank.Some? && rank.value != 0 ==> Reciprocal(rank) > 0.0
  {
    if rank.Some? && rank.value != 0 {
      ReciprocalAntitone(1, rank.value);
    }
  }

  lemma ReciprocalAntitone(a: nat, b: nat)
    requires 0 < a <= b
    ensures 0.0 < Reciprocal(Some(b)) <= Reciprocal(Some(a))
  {
    var x, y := (60 + a) as real, (60 + b) as real;
    assert 1.0 / x - 1.0 / y == (y - x) / (x * y);
  }

  /** A rerank lead of 2/61 over any retrieved rival always decides the order. */
  lemma RerankLeadDecides(
      lexical: seq<ChunkId>, semantic: seq<ChunkId>, features: ChunkId -> Features, a: ChunkId, b: ChunkId)
    requires a in lexical || a in semantic
    requires Rerank(features(a)) - Rerank(features(b)) >= 2.0 / 61.0
    ensures Precedes(FusedScore(lexical, semantic, features), a, b)
  {
    AbsentHasNoRank(lexical, a);
    AbsentHasNoRank(semantic, a);
    ReciprocalBounds(RankIn(lexical, a));
    ReciprocalBounds(RankIn(semantic, a));
    ReciprocalBounds(RankIn(lexical, b));
    ReciprocalBounds(RankIn(semantic, b));
  }

  /** A smaller lead can lose: the first in both lists precedes a rival that matches one more query term. */
  lemma SmallLeadCanLose()
    ensures var ahead := FinalScore(Sources(Some(1), Some(1)), Features(0, false, false, false, false));
      var behind := FinalScore(Sources(Some(200), None), Features(1, false, false, false, false));
      ahead > behind
  {
  }

  /** Finding a chunk, or finding it earlier, never costs score. */
  predicate NoWorse(better: Option<nat>, worse: Option<nat>) {
    worse.Some? ==> better.Some? && better.value <= worse.value
  }

  predicate Positive(sources: Sources) {
    (sources.lexical.Some? ==> sources.lexical.value > 0) && (sources.semantic.Some? ==> sources.semantic.value > 0)
  }

  lemma BetterSourcesScoreNoLess(better: Sources, worse: Sources, f: Features)
    requires Positive(better) && Positive(worse)
    requires NoWorse(better.lexical, worse.lexical) && NoWorse(better.semantic, worse.semantic)
    ensures FinalScore(better, f) >= FinalScore(worse, f)
  {
    ReciprocalBounds(better.lexical);
    ReciprocalBounds(better.semantic);
    if worse.lexical.Some? {
      ReciprocalAntitone(better.lexical.value, worse.lexical.value);
    }
    if worse.semantic.Some? {
      ReciprocalAntitone(better.semantic.value, worse.semantic.value);
    }
  }

  function Ahead(of: set<ChunkId>, score: ChunkId -> real, id: ChunkId): set<ChunkId> {
    set other | other in of && Precedes(score, other, id)
  }

  /** The position of an identifier is the number of identifiers ranked ahead of it. */
  lemma {:induction false} PositionCounts(ids: seq<ChunkId>, of: set<ChunkId>, score: ChunkId -> real, k: nat)
    requires IsRanking(ids, of, score) && k < |ids|
    ensures |Ahead(of, score, ids[k])| == k
  {
    var ahead := set i | 0 <= i < k :: ids[i];
    assert ahead == Ahead(of, score, ids[k]) by {
      forall other | other in Ahead(of, score, ids[k]) ensures other in ahead {
        assert other in ids;
        var i :| 0 <= i < |ids| && ids[i] == other;
        assert forall j :: k < j < |ids| ==> Precedes(score, ids[k], ids[j]);
      }
      forall i | 0 <= i < k ensures ids[i] in Ahead(of, score, ids[k]) {
        assert ids[i] in ids;
      }
    }
    PrefixSize(ids, score, k);
  }

  /** A candidate that scores no less against rivals that score no more never moves down. */
  lemma BetterScoreNeverMovesDown(
      before: seq<ChunkId>, after: seq<ChunkId>, of: set<ChunkId>,
      score: ChunkId -> real, raised: ChunkId -> real, j: nat, k: nat)
    requires IsRanking(before, of, score) && IsRanking(after, of, raised)
    requires j < |before| && k < |after| && before[j] == after[k]
    requires raised(after[k]) >= score(after[k])
    requires forall id :: id in of && id != after[k] ==> raised(id) <= score(id)
    ensures k <= j
  {
    PositionCounts(before, of, score, j);
    PositionCounts(after, of, raised, k);
    var x, y := Ahead(of, raised, after[k]), Ahead(of, score, before[j]);
    assert x <= y;
    SubsetSize(x, y);
  }

  /**
   A better rank never moves a candidate down: when one chunk is found no later in both lists, and
   every other chunk no earlier, the chunk's place in the merged ranking is no later.
   */
  lemma BetterRankNeverMovesDown(
      lexical: seq<ChunkId>, semantic: seq<ChunkId>, lexical': seq<ChunkId>, semantic': seq<ChunkId>,
      features: ChunkId -> Features, before: seq<ChunkId>, after: seq<ChunkId>, j: nat, k: nat)
    requires Union(lexical, semantic) == Union(lexical', semantic')
    requires IsRanking(before, Union(lexical, semantic), FusedScore(lexical, semantic, features))
    requires IsRanking(after, Union(lexical', semantic'), FusedScore(lexical', semantic', features))
    requires j < |before| && k < |after| && before[j] == after[k]
    requires NoWorse(RankIn(lexical', after[k]), RankIn(lexical, after[k]))
    requires NoWorse(RankIn(semantic', after[k]), RankIn(semantic, after[k]))
    requires forall id :: id in Union(lexical, semantic) && id != after[k] ==>
      NoWorse(RankIn(lexical, id), RankIn(lexical', id)) && NoWorse(RankIn(semantic, id), RankIn(semantic', id))
    ensures k <= j
  {
    var score, raised := FusedScore(lexical, semantic, features), FusedScore(lexical', semantic', features);
    forall id ensures Positive(SourcesOf(lexical, semantic, id)) && Positive(SourcesOf(lexical', semantic', id)) {
      AbsentHasNoRank(lexical, id);
      AbsentHasNoRank(semantic, id);
      AbsentHasNoRank(lexical', id);
      AbsentHasNoRank(semantic', id);
    }
    BetterSourcesScoreNoLess(
      SourcesOf(lexical', semantic', after[k]), SourcesOf(lexical, semantic, after[k]), features(after[k]));
    forall id | id in Union(lexical, semantic) && id != after[k] ensures raised(id) <= score(id) {
      BetterSourcesScoreNoLess(SourcesOf(lexical, semantic, id), SourcesOf(lexical', semantic', id), features(id));
    }
    BetterScoreNeverMovesDown(before, after, Union(lexical, semantic), score, raised, j, k);
  }

  // ---------------------------------------------------------------------------------------------
  // Search
  // ---------------------------------------------------------------------------------------------

  function Max(a: nat, b: nat): nat {
    if a >= b then a else b
  }

  function PoolSize(topK: nat): nat {
    Min(Max(topK * 4, 20), 200)
  }

  datatype SearchError = TopKOutOfRange | InvalidQueryVector

  /** What a search returns: the best of the union of both pools, each with its ranks and its score. */
  predicate Fused(
      results: seq<Candidate>, lexical: seq<ChunkId>, semantic: seq<ChunkId>, features: ChunkId -> Features,
      topK: nat)
  {
    && IsTop(Ids(results), Union(lexical, semantic), FusedScore(lexical, semantic, features), topK)
    && forall c :: c in results ==>
         c == Candidate(c.id, SourcesOf(lexical, semantic, c.id), FusedScore(lexical, semantic, features)(c.id))
  }

  /** The pools are the best of what the full-text query matches, and the best of all vectors. */
  predicate Pools(
      lexical: seq<ChunkId>, semantic: seq<ChunkId>, rows: map<ChunkId, Chunk>, fts: seq<FtsRow>,
      vectors: map<ChunkId, Vector>, q: Query, size: nat)
  {
    && IsTop(lexical, Matching(rows, fts, q), q.relevance, size)
    && IsTop(semantic, Comparable(vectors, q), Similarity(vectors, q.encoded), size)
  }

  ghost predicate HybridResult(
      results: seq<Candidate>, rows: map<ChunkId, Chunk>, fts: seq<FtsRow>, vectors: map<ChunkId, Vector>, q: Query,
      features: ChunkId -> Features, topK: nat)
  {
    exists lexical, semantic ::
      && Pools(lexical, semantic, rows, fts, vectors, q, PoolSize(topK))
      && Fused(results, lexical, semantic, features, topK)
  }

  lemma FusedIsCanonical(
      a: seq<Candidate>, b: seq<Candidate>, lexical: seq<ChunkId>, semantic: seq<ChunkId>,
      features: ChunkId -> Features, topK: nat)
    requires Fused(a, lexical, semantic, features, topK) && Fused(b, lexical, semantic, features, topK)
    ensures a == b
  {
    TopIsCanonical(Ids(a), Ids(b), Union(lexical, semantic), FusedScore(lexical, semantic, features), topK);
    forall k | 0 <= k < |a| ensures a[k] == b[k] {
      assert a[k] in a && b[k] in b && Ids(a)[k] == Ids(b)[k];
    }
  }

  lemma PoolsAreCanonical(
      lexical: seq<ChunkId>, semantic: seq<ChunkId>, lexical': seq<ChunkId>, semantic': seq<ChunkId>,
      rows: map<ChunkId, Chunk>, fts: seq<FtsRow>, vectors: map<ChunkId, Vector>, q: Query, size: nat)
    requires Pools(lexical, semantic, rows, fts, vectors, q, size)
    requires Pools(lexical', semantic', rows, fts, vectors, q, size)
    ensures lexical == lexical' && semantic == semantic'
  {
    TopIsCanonical(lexical, lexical', Matching(rows, fts, q), q.relevance, size);
    TopIsCanonical(semantic, semantic', Comparable(vectors, q), Similarity(vectors, q.encoded), size);
  }

  /** There is one result: no order of visiting rows, vectors or a dictionary shows. */
  lemma HybridResultIsCanonical(
      a: seq<Candidate>, b: seq<Candidate>, rows: map<ChunkId, Chunk>, fts: seq<FtsRow>,
      vectors: map<ChunkId, Vector>, q: Query, features: ChunkId -> Features, topK: nat)
    requires HybridResult(a, rows, fts, vectors, q, features, topK)
    requires HybridResult(b, rows, fts, vectors, q, features, topK)
    ensures a == b
  {
    var size := PoolSize(topK);
    var lexical, semantic :|
      Pools(lexical, semantic, rows, fts, vectors, q, size) && Fused(a, lexical, semantic, features, topK);
    var lexical', semantic' :|
      Pools(lexical', semantic', rows, fts, vectors, q, size) && Fused(b, lexical', semantic', features, topK);
    PoolsAreCanonical(lexical, semantic, lexical', semantic', rows, fts, vectors, q, size);
    FusedIsCanonical(a, b, lexical, semantic, features, topK);
  }

  /** The union of the pools is never smaller than what a search may return. */
  lemma FusedIsFull(
      results: seq<Candidate>, lexical: seq<ChunkId>, semantic: seq<ChunkId>, features: ChunkId -> Features,
      topK: nat, indexed: set<ChunkId>)
    requires Fused(results, lexical, semantic, features, topK)
    requires Union(lexical, semantic) <= indexed && Min(topK, |indexed|) <= |Elements(semantic)|
    ensures |results| == Min(topK, |indexed|)
    ensures forall c :: c in results ==> c.id in indexed
    ensures forall i, j :: 0 <= i < j < |results| ==> results[i].id != results[j].id
  {
    SubsetSize(Elements(semantic), Union(lexical, semantic));
    SubsetSize(Union(lexical, semantic), indexed);
    forall c | c in results ensures c.id in indexed {
      var k :| 0 <= k < |results| && results[k] == c;
      assert Ids(results)[k] in Ids(results);
    }
    forall i, j | 0 <= i < j < |results| ensures results[i].id != results[j].id {
      assert Precedes(FusedScore(lexical, semantic, features), Ids(results)[i], Ids(results)[j]);
    }
  }

  lemma PoolsAreFull(
      lexical: seq<ChunkId>, semantic: seq<ChunkId>, rows: map<ChunkId, Chunk>, fts: seq<FtsRow>,
      vectors: map<ChunkId, Vector>, q: Query, size: nat)
    requires Pools(lexical, semantic, rows, fts, vectors, q, size) && !q.blank && vectors.Keys == rows.Keys
    ensures Union(lexical, semantic) <= rows.Keys && |Elements(semantic)| == Min(size, |rows.Keys|)
  {
    RankedSize(semantic, Similarity(vectors, q.encoded));
  }

  /** Over agreeing indexes a search never returns fewer chunks than it could, and only indexed ones. */
  lemma SearchIsFull(
      results: seq<Candidate>, rows: map<ChunkId, Chunk>, fts: seq<FtsRow>, vectors: map<ChunkId, Vector>, q: Query,
      features: ChunkId -> Features, topK: nat)
    requires HybridResult(results, rows, fts, vectors, q, features, topK) && topK <= 100 && !q.blank
    requires vectors.Keys == rows.Keys
    ensures |results| == Min(topK, |rows.Keys|)
    ensures forall c :: c in results ==> c.id in rows
    ensures forall i, j :: 0 <= i < j < |results| ==> results[i].id != results[j].id
  {
    var lexical, semantic :|
      && Pools(lexical, semantic, rows, fts, vectors, q, PoolSize(topK))
      && Fused(results, lexical, semantic, features, topK);
    PoolsAreFull(lexical, semantic, rows, fts, vectors, q, PoolSize(topK));
    FusedIsFull(results, lexical, semantic, features, topK, rows.Keys);
  }

  class HybridRetriever {
    const lexical: LexicalIndex
    const semantic: SemanticIndex

    constructor (lexical: LexicalIndex, semantic: SemanticIndex)
      ensures this.lexical == lexical && this.semantic == semantic
    {
      this.lexical, this.semantic := lexical, semantic;
    }

    /** Search both indexes for a pool of candidates, merge the pools and keep the best. */
    method Search(q: Query, features: ChunkId -> Features, topK: int)
      returns (found: Result<seq<Candidate>, SearchError>)
      requires InAgreement(lexical, semantic)
      ensures found == Err(TopKOutOfRange) <==> topK < 1 || topK > 100
      ensures found == Err(InvalidQueryVector) <==>
        1 <= topK <= 100 && !q.blank && semantic.chunks != map[] && !q.Encodes(semantic.dimension)
      ensures found.Ok? ==>
        HybridResult(found.value, lexical.rows, lexical.fts, semantic.vectors, q, features, topK)
      ensures found.Ok? && q.blank ==> found.value == []
      ensures found.Ok? && !q.blank ==>
        && |found.value| == Min(topK, |lexical.rows.Keys|)
        && (forall c :: c in found.value ==> c.id in lexical.rows)
        && (forall i, j :: 0 <= i < j < |found.value| ==> found.value[i].id != found.value[j].id)
    {
      if topK <= 0 || topK > 100 {
        return Err(TopKOutOfRange);
      }
      var pool := PoolSize(topK);
      var matched := lexical.Search(q, pool);
      var near := semantic.Search(q, pool);
      if near.None? {
        return Err(InvalidQueryVector);
      }
      var candidates := Merge(matched, near.value, features);
      var results := candidates[..Min(topK, |candidates|)];
      MergedIsFused(candidates, matched, near.value, features, topK);
      assert Pools(matched, near.value, lexical.rows, lexical.fts, semantic.vectors, q, pool);
      if !q.blank {
        SearchIsFull(results, lexical.rows, lexical.fts, semantic.vectors, q, features, topK);
      }
      found := Ok(results);
    }
  }

  lemma MergedIsFused(
      candidates: seq<Candidate>, lexical: seq<ChunkId>, semantic: seq<ChunkId>, features: ChunkId -> Features,
      topK: nat)
    requires IsRanking(Ids(candidates), Union(lexical, semantic), FusedScore(lexical, semantic, features))
    requires forall c :: c in candidates ==>
      c == Candidate(c.id, SourcesOf(lexical, semantic, c.id), FusedScore(lexical, semantic, features)(c.id))
    ensures Fused(candidates[..Min(topK, |candidates|)], lexical, semantic, features, topK)
  {
    CutIsTop(Ids(candidates), Union(lexical, semantic), FusedScore(lexical, semantic, features), topK);
    assert Ids(candidates[..Min(topK, |candidates|)]) == Ids(candidates)[..Min(topK, |candidates|)];
  }
}
