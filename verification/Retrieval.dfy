/** What is left of two searches after the fusion, the cut and the rerank
    (ingest/retrieval.py:82-108). */
module Retrieval {
  import opened Sorting
  import opened Fusion
  import opened FusionRanking

  // ----- The rerank -----

  function TextsOf(chunks: seq<Chunk>): seq<string> {
    seq(|chunks|, i requires 0 <= i < |chunks| => chunks[i].text)
  }

  /** `zip(candidates, scores)` */
  function Zip(chunks: seq<Chunk>, scores: seq<real>): seq<Scored> {
    var n := if |scores| < |chunks| then |scores| else |chunks|;
    seq(n, i requires 0 <= i < n => Scored(chunks[i], scores[i]))
  }

  function Candidates(dense: seq<Chunk>, sparse: seq<Chunk>, rrfTopN: nat): seq<Chunk> {
    Chunks(Take(Fuse(RRF_K, [dense, sparse]), rrfTopN))
  }

  function Reranked(chunks: seq<Chunk>, rerank: seq<string> -> seq<real>): seq<Scored> {
    SortBy(Zip(chunks, rerank(TextsOf(chunks))), Descending)
  }

  /** `hybrid_retrieve_scored`, after the two searches. */
  function HybridRetrieve(dense: seq<Chunk>, sparse: seq<Chunk>, rerank: seq<string> -> seq<real>,
                          rrfTopN: nat, rerankTopK: nat): seq<Scored> {
    var candidates := Candidates(dense, sparse, rrfTopN);
    if candidates == [] then [] else Take(Reranked(candidates, rerank), rerankTopK)
  }

  lemma ZipIsDistinct(chunks: seq<Chunk>, scores: seq<real>)
    requires Unrepeated(chunks) && |scores| == |chunks|
    ensures Distinct(Zip(chunks, scores))
    ensures forall s, t :: s in Zip(chunks, scores) && t in Zip(chunks, scores) && s != t ==> s.chunk.id != t.chunk.id
  {
    var zipped := Zip(chunks, scores);
    forall i, j | 0 <= i < j < |zipped| ensures zipped[i].chunk.id != zipped[j].chunk.id {
      assert Ids(chunks)[i] != Ids(chunks)[j];
    }
  }

  lemma RerankedIsSorted(chunks: seq<Chunk>, rerank: seq<string> -> seq<real>)
    requires Unrepeated(chunks) && |rerank(TextsOf(chunks))| == |chunks|
    ensures Falling(Reranked(chunks, rerank)) && |Reranked(chunks, rerank)| == |chunks|
    ensures Once(Ids(Chunks(Reranked(chunks, rerank))))
    ensures forall s :: s in Reranked(chunks, rerank) <==> s in Zip(chunks, rerank(TextsOf(chunks)))
  {
    var zipped, r := Zip(chunks, rerank(TextsOf(chunks))), Reranked(chunks, rerank);
    ZipIsDistinct(chunks, rerank(TextsOf(chunks)));
    SortByIsSorted(zipped, Descending);
    SortByIsDistinct(zipped, Descending);
    SameElements(zipped, Descending);
    forall i, j | 0 <= i < j < |r| ensures r[i].score >= r[j].score && r[i].chunk.id != r[j].chunk.id {
      assert Descending(r[i]) <= Descending(r[j]);
      assert r[i] in zipped && r[j] in zipped;
    }
  }

  lemma CandidatesAreUnrepeated(dense: seq<Chunk>, sparse: seq<Chunk>, rrfTopN: nat)
    ensures Unrepeated(Candidates(dense, sparse, rrfTopN))
  {
    FusedIsRankedUnion(RRF_K, [dense, sparse]);
  }

  /** What is kept, and that nothing of `all` left out beats it. */
  ghost predicate AreTheBest(r: seq<Scored>, all: seq<Scored>) {
    && Falling(r) && Once(Ids(Chunks(r)))
    && (forall s :: s in r ==> s in all)
    && (forall s, t :: s in r && t in all && t !in r ==> s.score >= t.score)
  }

  lemma PrefixIsTheBest(all: seq<Scored>, n: nat)
    requires Falling(all) && Once(Ids(Chunks(all)))
    ensures AreTheBest(Take(all, n), all)
  {
    var r := Take(all, n);
    assert forall m :: 0 <= m < |r| ==> all[m] in r;
    forall s, t | s in r && t in all && t !in r ensures s.score >= t.score {
      var i :| 0 <= i < |r| && r[i] == s;
      var j :| 0 <= j < |all| && all[j] == t;
      assert all[i].score >= all[j].score;
    }
    assert forall i :: 0 <= i < |r| ==> Ids(Chunks(r))[i] == Ids(Chunks(all))[i];
  }

  /** What the retrieval returns: of the candidates that the cut leaves, the best by the
      reranker, each once, the best first; no candidate left out beats one returned. */
  lemma RetrievedAreTheBest(dense: seq<Chunk>, sparse: seq<Chunk>, rerank: seq<string> -> seq<real>,
                            rrfTopN: nat, rerankTopK: nat)
    requires var cs := Candidates(dense, sparse, rrfTopN); |rerank(TextsOf(cs))| == |cs|
    ensures var cs := Candidates(dense, sparse, rrfTopN);
            var r := HybridRetrieve(dense, sparse, rerank, rrfTopN, rerankTopK);
            |r| == (if rerankTopK < |cs| then rerankTopK else |cs|) && AreTheBest(r, Zip(cs, rerank(TextsOf(cs))))
  {
    var cs := Candidates(dense, sparse, rrfTopN);
    CandidatesAreUnrepeated(dense, sparse, rrfTopN);
    RerankedIsSorted(cs, rerank);
    PrefixIsTheBest(Reranked(cs, rerank), rerankTopK);
  }

  // ----- The retrieval as a whole -----

  /** What either search found. */
  function Found(dense: seq<Chunk>, sparse: seq<Chunk>): set<int> {
    (set c | c in dense :: c.id) + (set c | c in sparse :: c.id)
  }

  lemma RankedIsFound(dense: seq<Chunk>, sparse: seq<Chunk>, id: int)
    ensures Ranks([dense, sparse], id) <==> id in Found(dense, sparse)
  {
    var lists := [dense, sparse];
    assert Ranks(lists, id) <==> id in Ids(lists[0]) || id in Ids(lists[1]);
    InIds(dense, id);
    InIds(sparse, id);
  }

  lemma InIds(chunks: seq<Chunk>, id: int)
    ensures id in Ids(chunks) <==> exists c :: c in chunks && c.id == id
  {
    if id in Ids(chunks) {
      var i :| 0 <= i < |chunks| && Ids(chunks)[i] == id;
      assert chunks[i] in chunks;
    }
    if c :| c in chunks && c.id == id {
      var i :| 0 <= i < |chunks| && chunks[i] == c;
      assert Ids(chunks)[i] == id;
    }
  }

  lemma {:induction false} OnceCounted(ids: seq<int>)
    requires Once(ids)
    ensures |set id | id in ids| == |ids|
  {
    if ids == [] {
    } else {
      var front, last := ids[..|ids| - 1], ids[|ids| - 1];
      OnceCounted(front);
      assert ids == front + [last];
      assert (set id | id in ids) == (set id | id in front) + {last};
      assert forall i :: 0 <= i < |front| ==> ids[i] != ids[|ids| - 1];
    }
  }

  predicate FallingBy(chunks: seq<Chunk>, dense: seq<Chunk>, sparse: seq<Chunk>) {
    forall i, j :: 0 <= i < j < |chunks| ==>
      Score(60, [dense, sparse], chunks[i].id) >= Score(60, [dense, sparse], chunks[j].id)
  }

  /** The first n of what both searches found, by their fused scores, each once; all of it
      if that is no more than n. */
  ghost predicate IsFirstCut(cs: seq<Chunk>, dense: seq<Chunk>, sparse: seq<Chunk>, n: nat) {
    && Unrepeated(cs)
    && |cs| == (if n < |Found(dense, sparse)| then n else |Found(dense, sparse)|)
    && (forall c :: c in cs ==> c in dense || c in sparse)
    && FallingBy(cs, dense, sparse)
    && (forall id, c :: id in Found(dense, sparse) && id !in Ids(cs) && c in cs ==>
          Score(60, [dense, sparse], c.id) >= Score(60, [dense, sparse], id))
  }

  lemma ScoredIds(fused: seq<Scored>, id: int)
    ensures id in Ids(Chunks(fused)) <==> exists s :: s in fused && s.chunk.id == id
  {
    var ids := Ids(Chunks(fused));
    assert |ids| == |fused| && forall i :: 0 <= i < |fused| ==> ids[i] == fused[i].chunk.id;
    if id in ids {
      var i :| 0 <= i < |ids| && ids[i] == id;
      assert fused[i] in fused;
    }
    if s :| s in fused && s.chunk.id == id {
      var i :| 0 <= i < |fused| && fused[i] == s;
      assert ids[i] == id;
    }
  }

  lemma FusedIds(dense: seq<Chunk>, sparse: seq<Chunk>)
    ensures (set id | id in Ids(Chunks(Fuse(RRF_K, [dense, sparse])))) == Found(dense, sparse)
  {
    var fused := Fuse(RRF_K, [dense, sparse]);
    FusedIsRankedUnion(RRF_K, [dense, sparse]);
    forall id ensures id in Ids(Chunks(fused)) <==> id in Found(dense, sparse) {
      RankedIsFound(dense, sparse, id);
      ScoredIds(fused, id);
    }
  }

  lemma FusedFalls(dense: seq<Chunk>, sparse: seq<Chunk>)
    ensures FallingBy(Chunks(Fuse(RRF_K, [dense, sparse])), dense, sparse)
  {
    var fused := Fuse(RRF_K, [dense, sparse]);
    FusedIsRankedUnion(RRF_K, [dense, sparse]);
    forall i | 0 <= i < |fused| ensures fused[i].score == Score(60, [dense, sparse], fused[i].chunk.id) {
      assert fused[i] in fused;
    }
  }

  lemma FusedWereFound(dense: seq<Chunk>, sparse: seq<Chunk>)
    ensures forall c :: c in Chunks(Fuse(RRF_K, [dense, sparse])) ==> c in dense || c in sparse
  {
    var lists := [dense, sparse];
    var fused := Fuse(RRF_K, lists);
    FusedIsRankedUnion(RRF_K, lists);
    forall c | c in Chunks(fused) ensures c in dense || c in sparse {
      var i :| 0 <= i < |fused| && fused[i].chunk == c;
      assert fused[i] in fused && Holds(lists, c);
    }
  }

  lemma FusedIsWhole(dense: seq<Chunk>, sparse: seq<Chunk>)
    ensures var cs := Chunks(Fuse(RRF_K, [dense, sparse]));
            && Unrepeated(cs) && |cs| == |Found(dense, sparse)|
            && (set id | id in Ids(cs)) == Found(dense, sparse)
            && (forall c :: c in cs ==> c in dense || c in sparse)
            && FallingBy(cs, dense, sparse)
  {
    FusedIsRankedUnion(RRF_K, [dense, sparse]);
    FusedIds(dense, sparse);
    OnceCounted(Ids(Chunks(Fuse(RRF_K, [dense, sparse]))));
    FusedWereFound(dense, sparse);
    FusedFalls(dense, sparse);
  }

  lemma CutIsFirst(all: seq<Chunk>, dense: seq<Chunk>, sparse: seq<Chunk>, n: nat)
    requires Unrepeated(all) && (set id | id in Ids(all)) == Found(dense, sparse) && |all| == |Found(dense, sparse)|
    requires (forall c :: c in all ==> c in dense || c in sparse) && FallingBy(all, dense, sparse)
    ensures IsFirstCut(Take(all, n), dense, sparse, n)
  {
    var cs := Take(all, n);
    assert forall i :: 0 <= i < |cs| ==> Ids(cs)[i] == Ids(all)[i];
    forall id, c | id in Found(dense, sparse) && id !in Ids(cs) && c in cs
      ensures Score(60, [dense, sparse], c.id) >= Score(60, [dense, sparse], id)
    {
      assert forall m :: 0 <= m < |cs| ==> Ids(cs)[m] != id && Ids(all)[m] != id;
      assert id in Ids(all);
      var j :| 0 <= j < |all| && Ids(all)[j] == id;
      var i :| 0 <= i < |cs| && cs[i] == c;
      assert cs[i] == all[i];
    }
  }

  /** The texts of the candidates, in order. */
  predicate AreTextsOf(texts: seq<string>, cs: seq<Chunk>) {
    |texts| == |cs| && forall i :: 0 <= i < |cs| ==> texts[i] == cs[i].text
  }

  /** The k best candidates by the reranker, each with the score of its own text, the best
      first; all of them if they are no more than k. */
  predicate IsSecondCut(r: seq<Scored>, cs: seq<Chunk>, scores: seq<real>, k: nat)
    requires |scores| == |cs|
  {
    && |r| == (if k < |cs| then k else |cs|)
    && Falling(r) && Once(Ids(Chunks(r)))
    && (forall s :: s in r ==> exists i :: 0 <= i < |cs| && s == Scored(cs[i], scores[i]))
    && (forall i, s :: 0 <= i < |cs| && Scored(cs[i], scores[i]) !in r && s in r ==> s.score >= scores[i])
  }

  /** A reranker gives one score for each text. */
  ghost predicate ScoresAll(rerank: seq<string> -> seq<real>) {
    forall texts :: |rerank(texts)| == |texts|
  }

  lemma BestAreSecondCut(r: seq<Scored>, cs: seq<Chunk>, scores: seq<real>, k: nat)
    requires |scores| == |cs| && AreTheBest(r, Zip(cs, scores)) && |r| == (if k < |cs| then k else |cs|)
    ensures IsSecondCut(r, cs, scores, k)
  {
    var zipped := Zip(cs, scores);
    forall i | 0 <= i < |cs| ensures Scored(cs[i], scores[i]) in zipped {
      assert zipped[i] == Scored(cs[i], scores[i]);
    }
  }

  /** The whole retrieval, told from the two searches and the reranker: what both searches
      found is ranked by its fused score and cut; the texts left are scored by the reranker
      and cut again. */
  lemma RetrievalIsTwoCuts(dense: seq<Chunk>, sparse: seq<Chunk>, rerank: seq<string> -> seq<real>,
                           n: nat, k: nat)
      returns (cs: seq<Chunk>, texts: seq<string>)
    requires ScoresAll(rerank)
    ensures IsFirstCut(cs, dense, sparse, n)
    ensures AreTextsOf(texts, cs) && |rerank(texts)| == |cs|
    ensures IsSecondCut(HybridRetrieve(dense, sparse, rerank, n, k), cs, rerank(texts), k)
  {
    cs, texts := Candidates(dense, sparse, n), TextsOf(Candidates(dense, sparse, n));
    FusedIsWhole(dense, sparse);
    CutIsFirst(Chunks(Fuse(RRF_K, [dense, sparse])), dense, sparse, n);
    assert cs == Take(Chunks(Fuse(RRF_K, [dense, sparse])), n);
    RetrievedAreTheBest(dense, sparse, rerank, n, k);
    BestAreSecondCut(HybridRetrieve(dense, sparse, rerank, n, k), cs, rerank(texts), k);
  }

  function IdsOf(r: seq<Scored>): set<int> {
    set s | s in r :: s.chunk.id
  }

  /** Every chunk returned was found by one of the searches; and if both cuts are as long as
      all that was found, all of it is returned. */
  lemma RetrievedWereFound(dense: seq<Chunk>, sparse: seq<Chunk>, rerank: seq<string> -> seq<real>, n: nat, k: nat)
    requires ScoresAll(rerank)
    ensures var r := HybridRetrieve(dense, sparse, rerank, n, k);
            && IdsOf(r) <= Found(dense, sparse)
            && (forall s :: s in r ==> s.chunk in dense || s.chunk in sparse)
            && (n >= |Found(dense, sparse)| && k >= |Found(dense, sparse)| ==> IdsOf(r) == Found(dense, sparse))
  {
    var r := HybridRetrieve(dense, sparse, rerank, n, k);
    var cs, texts := RetrievalIsTwoCuts(dense, sparse, rerank, n, k);
    forall s | s in r ensures s.chunk in dense || s.chunk in sparse {
      var i :| 0 <= i < |cs| && s == Scored(cs[i], rerank(texts)[i]);
      assert cs[i] in cs;
    }
    assert IdsOf(r) <= Found(dense, sparse);
    if n >= |Found(dense, sparse)| && k >= |Found(dense, sparse)| {
      OnceCounted(Ids(Chunks(r)));
      IdsOfReturned(r);
      SameSize(IdsOf(r), Found(dense, sparse));
    }
  }

  lemma IdsOfReturned(r: seq<Scored>)
    ensures IdsOf(r) == set id | id in Ids(Chunks(r))
  {
    forall id ensures id in IdsOf(r) <==> id in Ids(Chunks(r)) {
      ScoredIds(r, id);
    }
  }

  lemma SameSize(a: set<int>, b: set<int>)
    requires a <= b && |a| == |b|
    ensures a == b
  {
    assert b == a + (b - a) && |b| == |a| + |b - a|;
  }

  /** A chunk that was found and is not returned lost one of the cuts: n chunks that were
      found have no lower fused score, or the k returned have no lower score by the reranker. */
  lemma LeftOutLostACut(dense: seq<Chunk>, sparse: seq<Chunk>, rerank: seq<string> -> seq<real>, n: nat, k: nat,
                        id: int)
      returns (cs: seq<Chunk>, texts: seq<string>)
    requires ScoresAll(rerank)
    requires id in Found(dense, sparse) && id !in IdsOf(HybridRetrieve(dense, sparse, rerank, n, k))
    ensures IsFirstCut(cs, dense, sparse, n) && AreTextsOf(texts, cs) && |rerank(texts)| == |cs|
    ensures var r := HybridRetrieve(dense, sparse, rerank, n, k);
            || (id !in Ids(cs) && |cs| == n && forall c :: c in cs ==>
                  Score(60, [dense, sparse], c.id) >= Score(60, [dense, sparse], id))
            || (|r| == k && exists i :: 0 <= i < |cs| && cs[i].id == id && forall s :: s in r ==>
                  s.score >= rerank(texts)[i])
  {
    var r := HybridRetrieve(dense, sparse, rerank, n, k);
    cs, texts := RetrievalIsTwoCuts(dense, sparse, rerank, n, k);
    if id in Ids(cs) {
      var i :| 0 <= i < |cs| && Ids(cs)[i] == id;
      assert Scored(cs[i], rerank(texts)[i]) !in r;
      if |r| == |cs| {
        AllReturned(r, cs, rerank(texts), k, id);
      }
    } else if n >= |Found(dense, sparse)| {
      AllFoundAreIn(cs, dense, sparse, n, id);
    }
  }

  lemma AllReturned(r: seq<Scored>, cs: seq<Chunk>, scores: seq<real>, k: nat, id: int)
    requires |scores| == |cs| && IsSecondCut(r, cs, scores, k) && |r| == |cs| && Unrepeated(cs) && id in Ids(cs)
    ensures id in IdsOf(r)
  {
    OnceCounted(Ids(Chunks(r)));
    OnceCounted(Ids(cs));
    IdsOfReturned(r);
    forall x | x in IdsOf(r) ensures x in Ids(cs) {
      var s :| s in r && s.chunk.id == x;
      var i :| 0 <= i < |cs| && s == Scored(cs[i], scores[i]);
      assert Ids(cs)[i] == x;
    }
    SameSize(IdsOf(r), (set x | x in Ids(cs)));
  }

  lemma AllFoundAreIn(cs: seq<Chunk>, dense: seq<Chunk>, sparse: seq<Chunk>, n: nat, id: int)
    requires IsFirstCut(cs, dense, sparse, n) && n >= |Found(dense, sparse)| && id in Found(dense, sparse)
    ensures id in Ids(cs)
  {
    OnceCounted(Ids(cs));
    forall x | x in Ids(cs) ensures x in Found(dense, sparse) {
      var i :| 0 <= i < |cs| && Ids(cs)[i] == x;
      assert cs[i] in cs;
    }
    SameSize((set x | x in Ids(cs)), Found(dense, sparse));
  }
}
