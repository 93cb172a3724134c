/** The lexical and the semantic index of a repository, and the rebuild that keeps them in step. */
module Indexing {
  import opened Wrappers
  import opened Ranking

  datatype Chunk = Chunk(id: ChunkId, text: string)

  /** A row of the full-text table; the table has no key. */
  datatype FtsRow = FtsRow(id: ChunkId, text: string)

  type Vector = seq<real>

  function Ids(chunks: seq<Chunk>): set<ChunkId> {
    set chunk | chunk in chunks :: chunk.id
  }

  /** The chunk rows after a batch: under each identifier of the batch, its last chunk. */
  function Upsert(rows: map<ChunkId, Chunk>, chunks: seq<Chunk>): map<ChunkId, Chunk> {
    if chunks == [] then rows
    else
      var last := chunks[|chunks| - 1];
      Upsert(rows, chunks[..|chunks| - 1])[last.id := last]
  }

  function ById(chunks: seq<Chunk>): map<ChunkId, Chunk> {
    Upsert(map[], chunks)
  }

  lemma {:induction false} ByIdKeys(chunks: seq<Chunk>)
    ensures ById(chunks).Keys == Ids(chunks)
    ensures forall id :: id in ById(chunks) ==> ById(chunks)[id] in chunks && ById(chunks)[id].id == id
  {
    if chunks != [] {
      var k := |chunks| - 1;
      ByIdKeys(chunks[..k]);
      assert chunks == chunks[..k] + [chunks[k]];
      forall id | id in Ids(chunks) ensures id in ById(chunks) {
        var chunk :| chunk in chunks && chunk.id == id;
        assert chunk in chunks[..k] || chunk == chunks[k];
      }
    }
  }

  // ---------------------------------------------------------------------------------------------
  // Queries
  // ---------------------------------------------------------------------------------------------

  /**
   A query as the indexes see it: the full-text rows it matches, which are none for a query without
   words, the relevance of each chunk, and the encoder's answer, which may have the wrong shape.
   */
  datatype Query = Query(blank: bool, matches: FtsRow -> bool, relevance: ChunkId -> real, encoded: seq<Vector>) {
    predicate Encodes(dimension: nat) {
      |encoded| == 1 && |encoded[0]| == dimension
    }
  }

  /** The chunks that a full-text query joins with. */
  function Matching(rows: map<ChunkId, Chunk>, fts: seq<FtsRow>, q: Query): set<ChunkId> {
    if q.blank then {} else set row | row in fts && q.matches(row) && row.id in rows :: row.id
  }

  function Dot(a: Vector, b: Vector): real
    requires |a| == |b|
  {
    if a == [] then 0.0 else Dot(a[..|a| - 1], b[..|b| - 1]) + a[|a| - 1] * b[|b| - 1]
  }

  /** The chunks that a query is compared with. */
  function Comparable(vectors: map<ChunkId, Vector>, q: Query): set<ChunkId> {
    if q.blank then {} else vectors.Keys
  }

  /** The product of the query's vector with each chunk's. */
  function Similarity(vectors: map<ChunkId, Vector>, encoded: seq<Vector>): ChunkId -> real {
    (id: ChunkId) =>
      if |encoded| == 1 && id in vectors && |encoded[0]| == |vectors[id]| then Dot(encoded[0], vectors[id]) else 0.0
  }

  // ---------------------------------------------------------------------------------------------
  // The lexical index
  // ---------------------------------------------------------------------------------------------

  function Without(rows: seq<FtsRow>, id: ChunkId): seq<FtsRow> {
    if rows == [] then []
    else (if rows[0].id == id then [] else [rows[0]]) + Without(rows[1..], id)
  }

  predicate DistinctIds(rows: seq<FtsRow>) {
    forall i, j :: 0 <= i < j < |rows| ==> rows[i].id != rows[j].id
  }

  lemma {:induction false} WithoutKeepsOthers(rows: seq<FtsRow>, id: ChunkId)
    ensures forall row :: row in Without(rows, id) <==> row in rows && row.id != id
    ensures DistinctIds(rows) ==> DistinctIds(Without(rows, id))
  {
    if rows != [] {
      WithoutKeepsOthers(rows[1..], id);
      assert rows == [rows[0]] + rows[1..];
      var rest := Without(rows[1..], id);
      if DistinctIds(rows) {
        forall i | 0 <= i < |rest| ensures rest[i].id != rows[0].id {
          assert rest[i] in rest;
        }
      }
    }
  }

  /** The full-text table holds exactly one row for each row of the chunk table, with its text. */
  ghost predicate InStep(rows: map<ChunkId, Chunk>, fts: seq<FtsRow>) {
    && (forall row :: row in fts ==> row.id in rows && row.text == rows[row.id].text)
    && (forall id :: id in rows ==> FtsRow(id, rows[id].text) in fts)
    && DistinctIds(fts)
  }

  class LexicalIndex {
    var rows: map<ChunkId, Chunk>
    var fts: seq<FtsRow>

    constructor ()
      ensures rows == map[] && fts == []
    {
      rows, fts := map[], [];
    }

    /**
     Delete the full-text row, insert or replace the chunk row and insert the full-text row of every
     chunk.  The statement numbered `fault`, if the batch has so many, fails.
     */
    method IndexChunks(chunks: seq<Chunk>, fault: Option<nat>) returns (ok: bool)
      requires InStep(rows, fts)
      modifies this
      ensures ok <==> fault.None? || fault.value >= 3 * |chunks|
      ensures ok ==> InStep(rows, fts) && rows == Upsert(old(rows), chunks)
    {
      ok := true;
      for k := 0 to |chunks|
        invariant InStep(rows, fts) && rows == Upsert(old(rows), chunks[..k])
        invariant fault.None? || fault.value >= 3 * k
      {
        ok := IndexChunk(chunks[k], if fault.Some? then Some(fault.value - 3 * k) else None);
        if !ok {
          return;
        }
        assert chunks[..k + 1][..k] == chunks[..k];
      }
      assert chunks[..|chunks|] == chunks;
    }

    /** The three statements of one chunk; what runs before a failing one stays until the rollback. */
    method IndexChunk(chunk: Chunk, fault: Option<nat>) returns (ok: bool)
      requires InStep(rows, fts)
      modifies this
      ensures ok <==> fault.None? || fault.value >= 3
      ensures ok ==> InStep(rows, fts) && rows == old(rows)[chunk.id := chunk]
    {
      ok := false;
      if fault == Some(0) {
        return;
      }
      InsertKeepsStep(rows, fts, chunk);
      fts := Without(fts, chunk.id);
      if fault == Some(1) {
        return;
      }
      rows := rows[chunk.id := chunk];
      if fault == Some(2) {
        return;
      }
      fts := fts + [FtsRow(chunk.id, chunk.text)];
      ok := true;
    }

    /**
     Replace every row in one transaction.  The two deletions are its statements 0 and 1, those of the
     chunks follow; `commits` tells whether the commit succeeds.
     */
    method Replace(chunks: seq<Chunk>, fault: Option<nat>, commits: bool) returns (ok: bool)
      requires InStep(rows, fts)
      modifies this
      ensures InStep(rows, fts)
      ensures ok <==> commits && (fault.None? || fault.value >= 2 + 3 * |chunks|)
      ensures rows == if ok then ById(chunks) else old(rows)
      ensures !ok ==> fts == old(fts)
    {
      var savedRows, savedFts := rows, fts;
      ok := DeleteAll(fault);
      if ok {
        ok := IndexChunks(chunks, if fault.Some? then Some(fault.value - 2) else None);
        ok := ok && commits;
      }
      if !ok {
        rows, fts := savedRows, savedFts;
      }
    }

    /** Empty both tables; what is deleted before a failing statement stays so until the rollback. */
    method DeleteAll(fault: Option<nat>) returns (ok: bool)
      modifies this
      ensures ok <==> fault.None? || fault.value >= 2
      ensures ok ==> rows == map[] && fts == []
    {
      if fault == Some(0) {
        return false;
      }
      fts := [];
      if fault == Some(1) {
        return false;
      }
      rows := map[];
      ok := true;
    }

    /** Add or refresh chunks in one transaction. */
    method Index(chunks: seq<Chunk>, fault: Option<nat>, commits: bool) returns (ok: bool)
      requires InStep(rows, fts)
      modifies this
      ensures InStep(rows, fts)
      ensures ok <==> commits && (fault.None? || fault.value >= 3 * |chunks|)
      ensures rows == if ok then Upsert(old(rows), chunks) else old(rows)
      ensures !ok ==> fts == old(fts)
    {
      var savedRows, savedFts := rows, fts;
      ok := IndexChunks(chunks, fault);
      ok := ok && commits;
      if !ok {
        rows, fts := savedRows, savedFts;
      }
    }

    /** The best matching chunks; each chunk has one full-text row, so none is joined twice. */
    method Search(q: Query, limit: nat) returns (found: seq<ChunkId>)
      requires InStep(rows, fts)
      ensures IsTop(found, Matching(rows, fts, q), q.relevance, Min(limit, 1000))
    {
      if limit == 0 || q.blank {
        return [];
      }
      var matching := Matching(rows, fts, q);
      var ranking := Rank(matching, q.relevance);
      CutIsTop(ranking, matching, q.relevance, Min(limit, 1000));
      found := ranking[..Min(Min(limit, 1000), |ranking|)];
    }
  }

  /** Deleting the old full-text row before inserting the new one keeps one row for each chunk. */
  lemma InsertKeepsStep(rows: map<ChunkId, Chunk>, fts: seq<FtsRow>, chunk: Chunk)
    requires InStep(rows, fts)
    ensures InStep(rows[chunk.id := chunk], Without(fts, chunk.id) + [FtsRow(chunk.id, chunk.text)])
  {
    WithoutKeepsOthers(fts, chunk.id);
    var kept := Without(fts, chunk.id);
    forall i | 0 <= i < |kept| ensures kept[i].id != chunk.id {
      assert kept[i] in kept;
    }
    forall id | id in rows && id != chunk.id ensures FtsRow(id, rows[id].text) in kept {
      assert FtsRow(id, rows[id].text) in fts;
    }
  }

  // ---------------------------------------------------------------------------------------------
  // The semantic index
  // ---------------------------------------------------------------------------------------------

  datatype Snapshot = Snapshot(chunks: map<ChunkId, Chunk>, vectors: map<ChunkId, Vector>)

  /** The entries under an identifier are a chunk of the batch and its encoding. */
  predicate Entry(
      chunks: map<ChunkId, Chunk>, vectors: map<ChunkId, Vector>, batch: seq<Chunk>, encoded: seq<Vector>,
      id: ChunkId, i: nat)
    requires |encoded| == |batch| && id in chunks && id in vectors
  {
    i < |batch| && batch[i].id == id && chunks[id] == batch[i] && vectors[id] == encoded[i]
  }

  /** Under each identifier the chunk and the vector come from one place of the batch and its encoding. */
  ghost predicate Paired(
      chunks: map<ChunkId, Chunk>, vectors: map<ChunkId, Vector>, batch: seq<Chunk>, encoded: seq<Vector>)
    requires |encoded| == |batch|
  {
    && vectors.Keys == chunks.Keys
    && forall id :: id in vectors ==> exists i: nat :: Entry(chunks, vectors, batch, encoded, id, i)
  }

  lemma PairedNext(
      chunks: map<ChunkId, Chunk>, vectors: map<ChunkId, Vector>, batch: seq<Chunk>, encoded: seq<Vector>, k: nat)
    requires k < |batch| == |encoded| && Paired(chunks, vectors, batch[..k], encoded[..k])
    ensures Paired(
      chunks[batch[k].id := batch[k]], vectors[batch[k].id := encoded[k]], batch[..k + 1], encoded[..k + 1])
  {
    var chunks', vectors' := chunks[batch[k].id := batch[k]], vectors[batch[k].id := encoded[k]];
    var batch', encoded' := batch[..k + 1], encoded[..k + 1];
    assert Entry(chunks', vectors', batch', encoded', batch[k].id, k);
    forall id | id in vectors && id != batch[k].id
      ensures exists i: nat :: Entry(chunks', vectors', batch', encoded', id, i)
    {
      var i: nat :| Entry(chunks, vectors, batch[..k], encoded[..k], id, i);
      assert Entry(chunks', vectors', batch', encoded', id, i);
    }
  }

  class SemanticIndex {
    const dimension: nat
    var chunks: map<ChunkId, Chunk>
    var vectors: map<ChunkId, Vector>

    constructor (dimension: nat)
      ensures chunks == map[] && vectors == map[] && this.dimension == dimension
    {
      this.dimension := dimension;
      chunks, vectors := map[], map[];
    }

    /** Build a snapshot from the encoder's answer, which may have the wrong shape. */
    method PrepareSnapshot(batch: seq<Chunk>, encoded: seq<Vector>) returns (snapshot: Option<Snapshot>)
      ensures snapshot.Some? <==>
        |encoded| == |batch| && forall i :: 0 <= i < |encoded| ==> |encoded[i]| == dimension
      ensures snapshot.Some? ==>
        && snapshot.value.chunks == ById(batch)
        && Paired(snapshot.value.chunks, snapshot.value.vectors, batch, encoded)
        && forall id :: id in snapshot.value.vectors ==> |snapshot.value.vectors[id]| == dimension
    {
      if |encoded| != |batch| {
        return None;
      }
      var byId: map<ChunkId, Chunk>, vectorById: map<ChunkId, Vector> := map[], map[];
      for k := 0 to |batch|
        invariant forall i :: 0 <= i < k ==> |encoded[i]| == dimension
        invariant byId == ById(batch[..k]) && Paired(byId, vectorById, batch[..k], encoded[..k])
        invariant forall id :: id in vectorById ==> |vectorById[id]| == dimension
      {
        if |encoded[k]| != dimension {
          return None;
        }
        assert batch[..k + 1][..k] == batch[..k];
        PairedNext(byId, vectorById, batch, encoded, k);
        byId := byId[batch[k].id := batch[k]];
        vectorById := vectorById[batch[k].id := encoded[k]];
      }
      assert batch[..|batch|] == batch && encoded[..|encoded|] == encoded;
      snapshot := Some(Snapshot(byId, vectorById));
    }

    method InstallSnapshot(snapshot: Snapshot)
      modifies this
      ensures chunks == snapshot.chunks && vectors == snapshot.vectors
    {
      chunks := snapshot.chunks;
      vectors := snapshot.vectors;
    }

    /** The chunks nearest to the query, unless its encoding has the wrong shape. */
    method Search(q: Query, limit: nat) returns (found: Option<seq<ChunkId>>)
      requires vectors.Keys == chunks.Keys
      requires forall id :: id in vectors ==> |vectors[id]| == dimension
      ensures found.None? <==> limit > 0 && !q.blank && chunks != map[] && !q.Encodes(dimension)
      ensures found.Some? ==> IsTop(found.value, Comparable(vectors, q), Similarity(vectors, q.encoded), limit)
    {
      if limit == 0 || q.blank || chunks == map[] {
        return Some([]);
      }
      if !q.Encodes(dimension) {
        return None;
      }
      var score := Similarity(vectors, q.encoded);
      var ranking := Rank(vectors.Keys, score);
      CutIsTop(ranking, vectors.Keys, score, limit);
      found := Some(ranking[..Min(limit, |ranking|)]);
    }
  }

  // ---------------------------------------------------------------------------------------------
  // Rebuilding both
  // ---------------------------------------------------------------------------------------------

  /** Everything outside the indexes that decides how a rebuild goes. */
  datatype BuildFacts = BuildFacts(
    ingested: Option<seq<Chunk>>, encoded: seq<Vector>, fault: Option<nat>, commits: bool)
  {
    /** Ingestion, encoding and every statement up to the commit succeed. */
    predicate Succeeds(dimension: nat) {
      && ingested.Some? && commits
      && |encoded| == |ingested.value|
      && (forall i :: 0 <= i < |encoded| ==> |encoded[i]| == dimension)
      && (fault.None? || fault.value >= 2 + 3 * |ingested.value|)
    }
  }

  /** The chunks indexed after a sequence of rebuilds. */
  function AfterBuilds(rows: map<ChunkId, Chunk>, attempts: seq<BuildFacts>, dimension: nat): map<ChunkId, Chunk> {
    if attempts == [] then rows
    else
      var last := attempts[|attempts| - 1];
      if last.Succeeds(dimension) then ById(last.ingested.value)
      else AfterBuilds(rows, attempts[..|attempts| - 1], dimension)
  }

  /** The attempt numbered `k` is the last one that succeeds. */
  predicate LastSuccess(attempts: seq<BuildFacts>, dimension: nat, k: nat) {
    && k < |attempts| && attempts[k].Succeeds(dimension)
    && forall i :: k < i < |attempts| ==> !attempts[i].Succeeds(dimension)
  }

  lemma {:induction false} LastSuccessWins(rows: map<ChunkId, Chunk>, attempts: seq<BuildFacts>, dimension: nat, k: nat)
    requires LastSuccess(attempts, dimension, k)
    ensures AfterBuilds(rows, attempts, dimension) == ById(attempts[k].ingested.value)
  {
    if k < |attempts| - 1 {
      LastSuccessWins(rows, attempts[..|attempts| - 1], dimension, k);
    }
  }

  /** Both indexes hold the same chunks, each with one full-text row and one vector of the right length. */
  ghost predicate InAgreement(lexical: LexicalIndex, semantic: SemanticIndex)
    reads lexical, semantic
  {
    && InStep(lexical.rows, lexical.fts)
    && lexical.rows == semantic.chunks
    && semantic.vectors.Keys == semantic.chunks.Keys
    && forall id :: id in semantic.vectors ==> |semantic.vectors[id]| == semantic.dimension
  }

  /** Each of the four places holds exactly the chunks of a list: one row or entry for each identifier. */
  ghost predicate Holds(lexical: LexicalIndex, semantic: SemanticIndex, chunks: seq<Chunk>)
    reads lexical, semantic
  {
    && lexical.rows == ById(chunks) && semantic.chunks == ById(chunks)
    && lexical.rows.Keys == Ids(chunks) && semantic.vectors.Keys == Ids(chunks)
    && RowIds(lexical.fts) == Ids(chunks) && |lexical.fts| == |Ids(chunks)|
  }

  function RowIds(fts: seq<FtsRow>): set<ChunkId> {
    set row | row in fts :: row.id
  }

  lemma {:induction false} RowCount(fts: seq<FtsRow>)
    requires DistinctIds(fts)
    ensures |RowIds(fts)| == |fts|
  {
    if fts != [] {
      var rest := fts[1..];
      RowCount(rest);
      assert fts == [fts[0]] + rest;
      assert RowIds(fts) == {fts[0].id} + RowIds(rest);
      assert fts[0].id !in RowIds(rest);
    }
  }

  lemma AgreedHolds(lexical: LexicalIndex, semantic: SemanticIndex, chunks: seq<Chunk>)
    requires InAgreement(lexical, semantic) && lexical.rows == ById(chunks)
    ensures Holds(lexical, semantic, chunks)
  {
    ByIdKeys(chunks);
    RowCount(lexical.fts);
    forall id | id in lexical.rows ensures id in RowIds(lexical.fts) {
      assert FtsRow(id, lexical.rows[id].text) in lexical.fts;
    }
  }

  class RepositoryIndexer {
    const lexical: LexicalIndex
    const semantic: SemanticIndex

    /** New indexes are empty, and so agree. */
    constructor (lexical: LexicalIndex, semantic: SemanticIndex)
      ensures this.lexical == lexical && this.semantic == semantic
      ensures lexical.rows == map[] && lexical.fts == [] && semantic.chunks == map[] && semantic.vectors == map[] ==>
        Agree()
    {
      this.lexical := lexical;
      this.semantic := semantic;
    }

    ghost predicate Agree()
      reads this, lexical, semantic
    {
      InAgreement(lexical, semantic)
    }

    /**
     One rebuild.  It succeeds or changes nothing, and it leaves the indexes in agreement either way.
     */
    method Build(facts: BuildFacts) returns (built: bool)
      requires Agree()
      modifies lexical, semantic
      ensures Agree()
      ensures built <==> facts.Succeeds(semantic.dimension)
      ensures built ==>
        && Holds(lexical, semantic, facts.ingested.value)
        && Paired(semantic.chunks, semantic.vectors, facts.ingested.value, facts.encoded)
      ensures !built ==>
        lexical.rows == old(lexical.rows) && lexical.fts == old(lexical.fts)
        && semantic.chunks == old(semantic.chunks) && semantic.vectors == old(semantic.vectors)
    {
      if facts.ingested.None? {
        return false;
      }
      var chunks := facts.ingested.value;
      var snapshot := semantic.PrepareSnapshot(chunks, facts.encoded);
      if snapshot.None? {
        return false;
      }
      built := lexical.Replace(chunks, facts.fault, facts.commits);
      if built {
        semantic.InstallSnapshot(snapshot.value);
        AgreedHolds(lexical, semantic, chunks);
      }
    }

    /**
     Rebuilds one after another, each failing or not: afterwards both indexes hold exactly the chunks
     of the last one that succeeded, or what they held before when none did.
     */
    method BuildAll(attempts: seq<BuildFacts>)
      requires Agree()
      modifies lexical, semantic
      ensures Agree()
      ensures forall k: nat :: LastSuccess(attempts, semantic.dimension, k) ==>
        Holds(lexical, semantic, attempts[k].ingested.value)
      ensures (forall k :: 0 <= k < |attempts| ==> !attempts[k].Succeeds(semantic.dimension)) ==>
        lexical.rows == old(lexical.rows) && lexical.fts == old(lexical.fts)
        && semantic.chunks == old(semantic.chunks) && semantic.vectors == old(semantic.vectors)
    {
      for n := 0 to |attempts|
        invariant Agree()
        invariant lexical.rows == AfterBuilds(old(lexical.rows), attempts[..n], semantic.dimension)
        invariant (forall k :: 0 <= k < n ==> !attempts[k].Succeeds(semantic.dimension)) ==>
          lexical.rows == old(lexical.rows) && lexical.fts == old(lexical.fts)
          && semantic.chunks == old(semantic.chunks) && semantic.vectors == old(semantic.vectors)
      {
        var built := Build(attempts[n]);
        assert attempts[..n + 1][..n] == attempts[..n];
      }
      assert attempts[..|attempts|] == attempts;
      forall k: nat | LastSuccess(attempts, semantic.dimension, k)
        ensures Holds(lexical, semantic, attempts[k].ingested.value)
      {
        LastSuccessWins(old(lexical.rows), attempts, semantic.dimension, k);
        AgreedHolds(lexical, semantic, attempts[k].ingested.value);
      }
    }
  }
}
