/**
 Rankings of scored chunks.  A chunk identifier is the natural number of its position in text order, so
 that ties are broken by the text of the identifier.  Scores are exact.
 */
module Ranking {
  type ChunkId = nat

  /** The order of the sort key `(-score, id)`. */
  predicate Precedes(score: ChunkId -> real, a: ChunkId, b: ChunkId) {
    score(a) > score(b) || (score(a) == score(b) && a < b)
  }

  predicate Ranked(ids: seq<ChunkId>, score: ChunkId -> real) {
    forall i, j :: 0 <= i < j < |ids| ==> Precedes(score, ids[i], ids[j])
  }

  /** The identifiers of a set, each once, in rank order. */
  predicate IsRanking(ids: seq<ChunkId>, of: set<ChunkId>, score: ChunkId -> real) {
    && Ranked(ids, score)
    && (forall id :: id in ids ==> id in of)
    && (forall id :: id in of ==> id in ids)
  }

  function Insert(id: ChunkId, ids: seq<ChunkId>, score: ChunkId -> real): seq<ChunkId> {
    if ids == [] || Precedes(score, id, ids[0]) then [id] + ids else [ids[0]] + Insert(id, ids[1..], score)
  }

  lemma {:induction false} InsertRanks(id: ChunkId, ids: seq<ChunkId>, of: set<ChunkId>, score: ChunkId -> real)
    requires IsRanking(ids, of, score) && id !in of
    ensures IsRanking(Insert(id, ids, score), of + {id}, score)
  {
    if ids != [] && !Precedes(score, id, ids[0]) {
      assert ids[0] in ids;
      assert ids == [ids[0]] + ids[1..];
      assert ids[0] !in ids[1..];
      InsertRanks(id, ids[1..], of - {ids[0]}, score);
      var rest := Insert(id, ids[1..], score);
      forall i | 0 <= i < |rest| ensures Precedes(score, ids[0], rest[i]) {
        assert rest[i] in rest;
        if rest[i] != id {
          var k :| 0 <= k < |ids[1..]| && ids[1..][k] == rest[i];
        }
      }
    }
  }

  /** Sorting visits the identifiers in an arbitrary order, as it would a dictionary. */
  method Rank(of: set<ChunkId>, score: ChunkId -> real) returns (ids: seq<ChunkId>)
    ensures IsRanking(ids, of, score)
  {
    ids := [];
    var left, done := of, {};
    while left != {}
      invariant left !! done && left + done == of
      invariant IsRanking(ids, done, score)
      decreases left
    {
      var id :| id in left;
      InsertRanks(id, ids, done, score);
      ids := Insert(id, ids, score);
      left, done := left - {id}, done + {id};
    }
  }

  /** A set has one ranking: the order in which a dictionary is visited does not show. */
  lemma {:induction false} RankingIsCanonical(
      a: seq<ChunkId>, b: seq<ChunkId>, of: set<ChunkId>, score: ChunkId -> real)
    requires IsRanking(a, of, score) && IsRanking(b, of, score)
    ensures a == b
  {
    assert b != [] ==> b[0] in b;
    if a != [] {
      assert a[0] in a && a[0] in of;
      var k :| 0 <= k < |b| && b[k] == a[0];
      assert b[0] in b && b[0] in of;
      var l :| 0 <= l < |a| && a[l] == b[0];
      assert forall j :: 0 < j < |a| ==> Precedes(score, a[0], a[j]);
      assert forall j :: 0 < j < |b| ==> Precedes(score, b[0], b[j]);
      TailIsRanking(a, of, score);
      TailIsRanking(b, of, score);
      RankingIsCanonical(a[1..], b[1..], of - {a[0]}, score);
    }
  }

  lemma TailIsRanking(ids: seq<ChunkId>, of: set<ChunkId>, score: ChunkId -> real)
    requires IsRanking(ids, of, score) && ids != []
    ensures IsRanking(ids[1..], of - {ids[0]}, score)
  {
    assert ids == [ids[0]] + ids[1..];
    forall id | id in ids[1..] ensures id != ids[0] {
      var k :| 0 <= k < |ids[1..]| && ids[1..][k] == id;
      assert Precedes(score, ids[0], ids[k + 1]);
    }
  }

  lemma {:induction false} RankingSize(ids: seq<ChunkId>, of: set<ChunkId>, score: ChunkId -> real)
    requires IsRanking(ids, of, score)
    ensures |ids| == |of|
  {
    if ids == [] {
      assert of == {};
    } else {
      assert ids[0] in ids;
      TailIsRanking(ids, of, score);
      RankingSize(ids[1..], of - {ids[0]}, score);
    }
  }

  lemma {:induction false} PrefixSize(ids: seq<ChunkId>, score: ChunkId -> real, k: nat)
    requires Ranked(ids, score) && k <= |ids|
    ensures |(set i | 0 <= i < k :: ids[i])| == k
  {
    if k > 0 {
      PrefixSize(ids, score, k - 1);
      var shorter := set i | 0 <= i < k - 1 :: ids[i];
      assert (set i | 0 <= i < k :: ids[i]) == shorter + {ids[k - 1]};
      assert ids[k - 1] !in shorter;
    }
  }

  lemma {:induction false} SubsetSize(a: set<ChunkId>, b: set<ChunkId>)
    requires a <= b
    ensures |a| <= |b|
  {
    assert b == a + (b - a);
  }

  function Min(a: nat, b: nat): nat {
    if a <= b then a else b
  }

  function Elements(ids: seq<ChunkId>): set<ChunkId> {
    set id | id in ids
  }

  lemma {:induction false} RankedSize(ids: seq<ChunkId>, score: ChunkId -> real)
    requires Ranked(ids, score)
    ensures |Elements(ids)| == |ids|
  {
    if ids != [] {
      var k := |ids| - 1;
      RankedSize(ids[..k], score);
      assert ids == ids[..k] + [ids[k]];
      assert Elements(ids) == Elements(ids[..k]) + {ids[k]};
      forall id | id in ids[..k] ensures id != ids[k] {
        var i :| 0 <= i < k && ids[..k][i] == id;
        assert Precedes(score, ids[i], ids[k]);
      }
    }
  }

  /** The best identifiers of a set, at most `size`, best first: whatever is left out comes after them. */
  predicate IsTop(top: seq<ChunkId>, of: set<ChunkId>, score: ChunkId -> real, size: nat) {
    && Ranked(top, score)
    && |top| == Min(size, |of|)
    && (forall id :: id in top ==> id in of)
    && (forall id, kept :: id in of && id !in top && kept in top ==> Precedes(score, kept, id))
  }

  /** Cutting a ranking off keeps the best. */
  lemma CutIsTop(ids: seq<ChunkId>, of: set<ChunkId>, score: ChunkId -> real, size: nat)
    requires IsRanking(ids, of, score)
    ensures |ids| == |of| && IsTop(ids[..Min(size, |ids|)], of, score, size)
  {
    RankingSize(ids, of, score);
    var n := Min(size, |ids|);
    var top := ids[..n];
    assert ids == top + ids[n..];
    forall id, kept | id in of && id !in top && kept in top ensures Precedes(score, kept, id) {
      var i :| 0 <= i < n && top[i] == kept;
      var j :| 0 <= j < |ids| - n && ids[n..][j] == id;
      assert Precedes(score, ids[i], ids[n + j]);
    }
  }

  /** Two choices of the best keep the same identifiers. */
  lemma TopKeeps(a: seq<ChunkId>, b: seq<ChunkId>, of: set<ChunkId>, score: ChunkId -> real, size: nat)
    requires IsTop(a, of, score, size) && IsTop(b, of, score, size)
    ensures forall id :: id in a ==> id in b
  {
    if id :| id in a && id !in b {
      RankedSize(a, score);
      RankedSize(b, score);
      assert Elements(b) <= Elements(a) by {
        forall other | other in b ensures other in a {
          assert Precedes(score, other, id);
        }
      }
      assert Elements(b) <= Elements(a) - {id};
      SubsetSize(Elements(b), Elements(a) - {id});
      assert false;
    }
  }

  /** The best of a set are one sequence. */
  lemma TopIsCanonical(a: seq<ChunkId>, b: seq<ChunkId>, of: set<ChunkId>, score: ChunkId -> real, size: nat)
    requires IsTop(a, of, score, size) && IsTop(b, of, score, size)
    ensures a == b
  {
    TopKeeps(a, b, of, score, size);
    TopKeeps(b, a, of, score, size);
    RankingIsCanonical(a, b, Elements(a), score);
  }
}
