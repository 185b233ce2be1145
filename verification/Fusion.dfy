/** Reciprocal rank fusion of the dense and the sparse search, the cut, and the rerank
    (ingest/retrieval.py). Scores are exact reals; the two searches give any lists. */
module Fusion {
  import opened Basics
  import opened Sorting

  datatype Chunk = Chunk(id: int, text: string, scale: Option<string>, page: int)

  datatype Scored = Scored(chunk: Chunk, score: real)

  const RRF_K: nat := 60

  function Ids(chunks: seq<Chunk>): seq<int> {
    seq(|chunks|, i requires 0 <= i < |chunks| => chunks[i].id)
  }

  function Chunks(scored: seq<Scored>): seq<Chunk> {
    seq(|scored|, i requires 0 <= i < |scored| => scored[i].chunk)
  }

  // ----- The two dicts -----

  /** `chunks_by_id[c.chunk_id] = c` for each chunk: the last of equal ids stays. */
  function AddChunks(byId: map<int, Chunk>, chunks: seq<Chunk>): map<int, Chunk> {
    if chunks == [] then byId
    else
      var last := chunks[|chunks| - 1];
      AddChunks(byId, chunks[..|chunks| - 1])[last.id := last]
  }

  /** `{c.chunk_id: c for c in chunks}` */
  function ById(chunks: seq<Chunk>): map<int, Chunk> {
    AddChunks(map[], chunks)
  }

  function Note(order: seq<int>, id: int): seq<int> {
    if id in order then order else order + [id]
  }

  /** A dict keeps its keys in the order of their first insertion. */
  function NoteAll(order: seq<int>, chunks: seq<Chunk>): seq<int> {
    if chunks == [] then order else Note(NoteAll(order, chunks[..|chunks| - 1]), chunks[|chunks| - 1].id)
  }

  function Recip(n: nat): real
    requires n > 0
  {
    1.0 / n as real
  }

  /** What one ranked list adds to the score of a chunk. */
  function ScoreIn(k: nat, ranked: seq<Chunk>, id: int): real {
    if ranked == [] then 0.0
    else ScoreIn(k, ranked[..|ranked| - 1], id) + (if ranked[|ranked| - 1].id == id then Recip(k + |ranked|) else 0.0)
  }

  function Score(k: nat, lists: seq<seq<Chunk>>, id: int): real {
    if lists == [] then 0.0 else Score(k, lists[..|lists| - 1], id) + ScoreIn(k, lists[|lists| - 1], id)
  }

  function Order(lists: seq<seq<Chunk>>): seq<int> {
    if lists == [] then [] else NoteAll(Order(lists[..|lists| - 1]), lists[|lists| - 1])
  }

  function ChunkMap(lists: seq<seq<Chunk>>): map<int, Chunk> {
    if lists == [] then map[] else AddChunks(ChunkMap(lists[..|lists| - 1]), lists[|lists| - 1])
  }

  // ----- rrf_fuse -----

  /** `scores.items()`, with the chunks looked up. */
  function Items(k: nat, lists: seq<seq<Chunk>>): seq<Scored> {
    var order := Order(lists);
    seq(|order|, i requires 0 <= i < |order| => Item(k, lists, order[i]))
  }

  function Item(k: nat, lists: seq<seq<Chunk>>, id: int): Scored
    requires id in Order(lists)
  {
    OrderedIsMapped(lists, id);
    Scored(ChunkMap(lists)[id], Score(k, lists, id))
  }

  function Descending(s: Scored): real { -s.score }

  function Fuse(k: nat, lists: seq<seq<Chunk>>): seq<Scored> {
    SortBy(Items(k, lists), Descending)
  }

  /** `scores.get(id, 0.0)` */
  function Get(scores: map<int, real>, id: int): real {
    if id in scores then scores[id] else 0.0
  }

  method AddList(k: nat, ranked: seq<Chunk>, order0: seq<int>, scores0: map<int, real>, byId0: map<int, Chunk>)
    returns (order: seq<int>, scores: map<int, real>, byId: map<int, Chunk>)
    requires forall id :: id in scores0 <==> id in order0
    ensures forall id :: id in scores <==> id in order
    ensures order == NoteAll(order0, ranked) && byId == AddChunks(byId0, ranked)
    ensures forall id :: Get(scores, id) == Get(scores0, id) + ScoreIn(k, ranked, id)
  {
    order, scores, byId := order0, scores0, byId0;
    for r := 0 to |ranked|
      invariant order == NoteAll(order0, ranked[..r]) && byId == AddChunks(byId0, ranked[..r])
      invariant forall id :: id in scores <==> id in order
      invariant forall id :: Get(scores, id) == Get(scores0, id) + ScoreIn(k, ranked[..r], id)
    {
      var chunk := ranked[r];
      scores := scores[chunk.id := Get(scores, chunk.id) + Recip(k + r + 1)];
      order := Note(order, chunk.id);
      byId := byId[chunk.id := chunk];
      assert ranked[..r + 1][..r] == ranked[..r];
    }
    assert ranked[..|ranked|] == ranked;
  }

  /** `rrf_fuse`: two dicts, filled in nested loops. */
  method RrfFuse(lists: seq<seq<Chunk>>, k: nat) returns (fused: seq<Scored>)
    ensures fused == Fuse(k, lists)
  {
    var order: seq<int> := [];
    var scores: map<int, real> := map[];
    var byId: map<int, Chunk> := map[];
    for l := 0 to |lists|
      invariant order == Order(lists[..l]) && byId == ChunkMap(lists[..l])
      invariant forall id :: id in scores <==> id in order
      invariant forall id :: Get(scores, id) == Score(k, lists[..l], id)
    {
      order, scores, byId := AddList(k, lists[l], order, scores, byId);
      assert lists[..l + 1][..l] == lists[..l];
    }
    assert lists[..|lists|] == lists;
    fused := SortItems(k, lists, order, scores, byId);
  }

  method SortItems(k: nat, ghost lists: seq<seq<Chunk>>, order: seq<int>, scores: map<int, real>, byId: map<int, Chunk>)
    returns (fused: seq<Scored>)
    requires order == Order(lists) && byId == ChunkMap(lists)
    requires forall id :: id in scores <==> id in order
    requires forall id :: Get(scores, id) == Score(k, lists, id)
    ensures fused == Fuse(k, lists)
  {
    var items: seq<Scored> := [];
    for i := 0 to |order|
      invariant items == Items(k, lists)[..i]
    {
      var id := order[i];
      OrderedIsMapped(lists, id);
      assert Get(scores, id) == scores[id];
      assert Items(k, lists)[i] == Item(k, lists, id);
      items := items + [Scored(byId[id], scores[id])];
    }
    assert Items(k, lists)[..|order|] == Items(k, lists);
    fused := SortBy(items, Descending);
  }

  // ----- Whatever was ranked is in the result, once -----

  lemma {:induction false} AddedOrNot(byId: map<int, Chunk>, order: seq<int>, chunks: seq<Chunk>, id: int)
    ensures id in AddChunks(byId, chunks) <==> id in byId || id in Ids(chunks)
    ensures id in NoteAll(order, chunks) <==> id in order || id in Ids(chunks)
  {
    if chunks == [] {
    } else {
      AddedOrNot(byId, order, chunks[..|chunks| - 1], id);
      assert Ids(chunks) == Ids(chunks[..|chunks| - 1]) + [chunks[|chunks| - 1].id];
    }
  }

  /** The entry of an id is a chunk with that id, from the list or from before. */
  lemma {:induction false} AddedIsFrom(byId: map<int, Chunk>, chunks: seq<Chunk>, id: int)
    requires id in AddChunks(byId, chunks)
    ensures var c := AddChunks(byId, chunks)[id];
            (c in chunks && c.id == id) || (id in byId && c == byId[id])
  {
    if chunks == [] {
    } else {
      var front, last := chunks[..|chunks| - 1], chunks[|chunks| - 1];
      assert chunks == front + [last];
      if id != last.id {
        AddedIsFrom(byId, front, id);
      }
    }
  }

  predicate Ranks(lists: seq<seq<Chunk>>, id: int) {
    exists l :: 0 <= l < |lists| && id in Ids(lists[l])
  }

  predicate Holds(lists: seq<seq<Chunk>>, c: Chunk) {
    exists l :: 0 <= l < |lists| && c in lists[l]
  }

  lemma RanksInLast(lists: seq<seq<Chunk>>, id: int, c: Chunk)
    requires lists != []
    ensures Ranks(lists, id) <==> Ranks(lists[..|lists| - 1], id) || id in Ids(lists[|lists| - 1])
    ensures Holds(lists, c) <==> Holds(lists[..|lists| - 1], c) || c in lists[|lists| - 1]
  {
    var front, last := lists[..|lists| - 1], lists[|lists| - 1];
    assert forall l :: 0 <= l < |front| ==> lists[l] == front[l];
    assert lists[|lists| - 1] == last;
    if Ranks(front, id) {
      var l :| 0 <= l < |front| && id in Ids(front[l]);
      assert id in Ids(lists[l]);
    }
  }

  lemma {:induction false} OrderedIsMapped(lists: seq<seq<Chunk>>, id: int)
    ensures id in Order(lists) <==> id in ChunkMap(lists)
    ensures id in Order(lists) <==> Ranks(lists, id)
    ensures id in ChunkMap(lists) ==> ChunkMap(lists)[id].id == id && Holds(lists, ChunkMap(lists)[id])
  {
    if lists == [] {
    } else {
      var front, last := lists[..|lists| - 1], lists[|lists| - 1];
      OrderedIsMapped(front, id);
      AddedOrNot(ChunkMap(front), Order(front), last, id);
      if id in ChunkMap(lists) {
        AddedIsFrom(ChunkMap(front), last, id);
        RanksInLast(lists, id, ChunkMap(lists)[id]);
      } else {
        RanksInLast(lists, id, Chunk(id, "", None, 0));
      }
    }
  }

  predicate Once(ids: seq<int>) {
    forall i, j :: 0 <= i < j < |ids| ==> ids[i] != ids[j]
  }

  lemma {:induction false} NotedOnce(order: seq<int>, chunks: seq<Chunk>)
    requires Once(order)
    ensures Once(NoteAll(order, chunks))
  {
    if chunks == [] {
    } else {
      NotedOnce(order, chunks[..|chunks| - 1]);
    }
  }

  lemma {:induction false} OrderedOnce(lists: seq<seq<Chunk>>)
    ensures Once(Order(lists))
  {
    if lists == [] {
    } else {
      OrderedOnce(lists[..|lists| - 1]);
      NotedOnce(Order(lists[..|lists| - 1]), lists[|lists| - 1]);
    }
  }
}
