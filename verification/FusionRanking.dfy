/** What reciprocal rank fusion promises about two rankings. */
module FusionRanking {
  import opened Basics
  import opened Sorting
  import opened Fusion

  // ----- The result as a whole -----

  predicate IsItem(k: nat, lists: seq<seq<Chunk>>, s: Scored) {
    Ranks(lists, s.chunk.id) && Holds(lists, s.chunk) && s.score == Score(k, lists, s.chunk.id)
  }

  lemma ItemsAreItems(k: nat, lists: seq<seq<Chunk>>)
    ensures Distinct(Items(k, lists))
    ensures forall s :: s in Items(k, lists) ==> IsItem(k, lists, s)
    ensures forall id :: Ranks(lists, id) ==> exists s :: s in Items(k, lists) && s.chunk.id == id
  {
    var order, items := Order(lists), Items(k, lists);
    OrderedOnce(lists);
    forall i | 0 <= i < |order| ensures items[i].chunk.id == order[i] && IsItem(k, lists, items[i]) {
      OrderedIsMapped(lists, order[i]);
    }
    forall id | Ranks(lists, id) ensures exists s :: s in items && s.chunk.id == id {
      OrderedIsMapped(lists, id);
      var i :| 0 <= i < |order| && order[i] == id;
      assert items[i] in items;
    }
  }

  predicate Falling(scored: seq<Scored>) {
    forall i, j :: 0 <= i < j < |scored| ==> scored[i].score >= scored[j].score
  }

  /** Fusion of any lists: exactly the chunks of the lists, each id once, with its fused
      score, the highest first. */
  lemma FusedIsRankedUnion(k: nat, lists: seq<seq<Chunk>>)
    ensures Falling(Fuse(k, lists))
    ensures forall s :: s in Fuse(k, lists) ==> IsItem(k, lists, s)
    ensures forall id :: Ranks(lists, id) <==> exists s :: s in Fuse(k, lists) && s.chunk.id == id
    ensures forall i, j :: 0 <= i < j < |Fuse(k, lists)| ==> Fuse(k, lists)[i].chunk.id != Fuse(k, lists)[j].chunk.id
  {
    var items, fused := Items(k, lists), Fuse(k, lists);
    ItemsAreItems(k, lists);
    SortByIsSorted(items, Descending);
    SortByIsDistinct(items, Descending);
    SameElements(items, Descending);
    forall i, j | 0 <= i < j < |fused|
      ensures fused[i].chunk.id != fused[j].chunk.id && fused[i].score >= fused[j].score
    {
      assert Descending(fused[i]) <= Descending(fused[j]);
      assert fused[i] in items && fused[j] in items && fused[i] != fused[j];
      SameIdSameItem(k, lists, fused[i], fused[j]);
    }
  }

  /** Chunks that tie stay in the order in which the lists first name them. */
  lemma TiesKeepFirstSeenOrder(k: nat, lists: seq<seq<Chunk>>, score: real)
    ensures WithKey(Fuse(k, lists), Descending, -score) == WithKey(Items(k, lists), Descending, -score)
    ensures Ids(Chunks(Items(k, lists))) == Order(lists)
  {
    SortByIsStable(Items(k, lists), Descending, -score);
    forall i | 0 <= i < |Order(lists)| ensures Items(k, lists)[i].chunk.id == Order(lists)[i] {
      OrderedIsMapped(lists, Order(lists)[i]);
    }
  }

  lemma SameIdSameItem(k: nat, lists: seq<seq<Chunk>>, a: Scored, b: Scored)
    requires a in Items(k, lists) && b in Items(k, lists)
    ensures a.chunk.id == b.chunk.id ==> a == b
  {
    var order, items := Order(lists), Items(k, lists);
    var i :| 0 <= i < |items| && items[i] == a;
    var j :| 0 <= j < |items| && items[j] == b;
    OrderedIsMapped(lists, order[i]);
    OrderedIsMapped(lists, order[j]);
  }

  // ----- The scores of two rankings -----

  lemma RecipFalls(m: nat, n: nat)
    requires 0 < m < n
    ensures Recip(m) > Recip(n) > 0.0
  {
    InverseFalls(m as real, n as real);
  }

  lemma InverseFalls(x: real, y: real)
    requires 0.0 < x < y
    ensures 1.0 / x > 1.0 / y > 0.0
  {
    var a, b := 1.0 / x, 1.0 / y;
    assert a * x == 1.0 && b * y == 1.0;
    assert b > 0.0;
    assert b * x < b * y;
    assert (a - b) * x > 0.0;
  }

  predicate Unrepeated(ranked: seq<Chunk>) {
    Once(Ids(ranked))
  }

  lemma {:induction false} ScoreOfAbsent(k: nat, ranked: seq<Chunk>, id: int)
    requires id !in Ids(ranked)
    ensures ScoreIn(k, ranked, id) == 0.0
  {
    if ranked == [] {
    } else {
      assert Ids(ranked) == Ids(ranked[..|ranked| - 1]) + [ranked[|ranked| - 1].id];
      ScoreOfAbsent(k, ranked[..|ranked| - 1], id);
    }
  }

  lemma {:induction false} ScoreAtRank(k: nat, ranked: seq<Chunk>, i: nat)
    requires Unrepeated(ranked) && i < |ranked|
    ensures ScoreIn(k, ranked, ranked[i].id) == Recip(k + i + 1)
  {
    var front, last := ranked[..|ranked| - 1], ranked[|ranked| - 1];
    assert forall j :: 0 <= j < |front| ==> Ids(front)[j] == Ids(ranked)[j];
    if i == |ranked| - 1 {
      assert forall j :: 0 <= j < |front| ==> Ids(ranked)[j] != Ids(ranked)[i];
      ScoreOfAbsent(k, front, last.id);
    } else {
      assert Ids(ranked)[i] != Ids(ranked)[|ranked| - 1];
      ScoreAtRank(k, front, i);
    }
  }

  lemma ScoreOfTwo(k: nat, a: seq<Chunk>, b: seq<Chunk>, id: int)
    ensures Score(k, [a, b], id) == ScoreIn(k, a, id) + ScoreIn(k, b, id)
  {
    assert [a, b][..1] == [a] && [a][..0] == [];
    assert Score(k, [a], id) == ScoreIn(k, a, id);
  }

  lemma RecipFallsWeakly(m: nat, n: nat)
    requires 0 < m <= n
    ensures Recip(m) >= Recip(n) > 0.0
  {
    if m < n {
      RecipFalls(m, n);
    } else {
      RecipFalls(n, n + 1);
    }
  }

  /** Two last places of at most k + 1 beat one first place. */
  lemma TwoLastBeatOneFirst(k: nat, p: nat, q: nat)
    requires 1 <= p <= k + 1 && 1 <= q <= k + 1
    ensures Recip(k + p) + Recip(k + q) > Recip(k + 1)
  {
    RecipFallsWeakly(k + p, 2 * k + 1);
    RecipFallsWeakly(k + q, 2 * k + 1);
    RecipFalls(2 * k + 1, 2 * k + 2);
    HalfOf(k);
  }

  lemma HalfOf(k: nat)
    ensures Recip(2 * k + 2) + Recip(2 * k + 2) == Recip(k + 1)
  {
    var n := (k + 1) as real;
    assert (2 * k + 2) as real == 2.0 * n;
    assert 1.0 / (2.0 * n) + 1.0 / (2.0 * n) == 1.0 / n;
  }

  /** In exactly one of the two lists. */
  predicate InOne(a: seq<Chunk>, b: seq<Chunk>, id: int) {
    (id in Ids(a)) != (id in Ids(b))
  }

  lemma RankOf(k: nat, ranked: seq<Chunk>, id: int) returns (p: nat)
    requires Unrepeated(ranked) && id in Ids(ranked)
    ensures 1 <= p <= |ranked| && ScoreIn(k, ranked, id) == Recip(k + p)
  {
    var i :| 0 <= i < |ranked| && Ids(ranked)[i] == id;
    ScoreAtRank(k, ranked, i);
    p := i + 1;
  }

  /** With no list longer than k + 1 (30 and 60 in use), a chunk that both searches found
      scores strictly above every chunk that only one found, whatever their ranks. */
  lemma SharedBeatsSingle(k: nat, a: seq<Chunk>, b: seq<Chunk>, x: int, y: int)
    requires Unrepeated(a) && Unrepeated(b) && |a| <= k + 1 && |b| <= k + 1
    requires x in Ids(a) && x in Ids(b) && InOne(a, b, y)
    ensures Score(k, [a, b], x) > Score(k, [a, b], y)
  {
    ScoreOfTwo(k, a, b, x);
    ScoreOfTwo(k, a, b, y);
    var p := RankOf(k, a, x);
    var q := RankOf(k, b, x);
    TwoLastBeatOneFirst(k, p, q);
    SingleIsAtMostFirst(k, a, b, y);
  }

  lemma SingleIsAtMostFirst(k: nat, a: seq<Chunk>, b: seq<Chunk>, y: int)
    requires Unrepeated(a) && Unrepeated(b) && InOne(a, b, y)
    ensures ScoreIn(k, a, y) + ScoreIn(k, b, y) <= Recip(k + 1)
  {
    var here, there := if y in Ids(a) then a else b, if y in Ids(a) then b else a;
    ScoreOfAbsent(k, there, y);
    var p := RankOf(k, here, y);
    RecipFallsWeakly(k + 1, k + p);
  }

  /** n chunks with consecutive ids, then chunk 0. */
  function RowThenShared(n: nat, first: int): seq<Chunk> {
    seq(n + 1, i requires 0 <= i <= n => Chunk(if i < n then first + i else 0, "", None, 0))
  }

  lemma RowIsUnrepeated(n: nat, first: int)
    requires first > 0 || first + n <= 0
    ensures Unrepeated(RowThenShared(n, first)) && 0 in Ids(RowThenShared(n, first))
  {
    var ids := Ids(RowThenShared(n, first));
    assert forall i :: 0 <= i <= n ==> ids[i] == if i < n then first + i else 0;
    assert ids[n] == 0;
  }

  /** The length bound is exact: with lists of k + 2, two last places only tie with one
      first place. */
  lemma LongerListsOnlyTie(k: nat) returns (a: seq<Chunk>, b: seq<Chunk>)
    ensures Unrepeated(a) && Unrepeated(b) && |a| == |b| == k + 2
    ensures 0 in Ids(a) && 0 in Ids(b) && InOne(a, b, 1)
    ensures Score(k, [a, b], 0) == Score(k, [a, b], 1)
  {
    var n: int := k + 1;
    a, b := RowThenShared(k + 1, 1), RowThenShared(k + 1, -n);
    RowIsUnrepeated(k + 1, 1);
    RowIsUnrepeated(k + 1, -n);
    assert Ids(a)[0] == 1;
    TieOfTwoLast(k, a, b);
  }

  lemma TieOfTwoLast(k: nat, a: seq<Chunk>, b: seq<Chunk>)
    requires Unrepeated(a) && Unrepeated(b) && |a| == |b| == k + 2
    requires a[k + 1].id == b[k + 1].id == 0 && a[0].id == 1 && 1 !in Ids(b)
    ensures Score(k, [a, b], 0) == Score(k, [a, b], 1)
  {
    ScoreAtRank(k, a, k + 1);
    ScoreAtRank(k, b, k + 1);
    ScoreAtRank(k, a, 0);
    ScoreOfAbsent(k, b, 1);
    ScoreOfTwo(k, a, b, 0);
    ScoreOfTwo(k, a, b, 1);
    HalfOf(k);
  }

  predicate Precedes(fused: seq<Scored>, x: int, y: int) {
    exists i, j :: 0 <= i < j < |fused| && fused[i].chunk.id == x && fused[j].chunk.id == y
  }

  lemma HigherPrecedes(k: nat, lists: seq<seq<Chunk>>, x: int, y: int)
    requires Ranks(lists, x) && Ranks(lists, y) && Score(k, lists, x) > Score(k, lists, y)
    ensures Precedes(Fuse(k, lists), x, y)
  {
    var fused := Fuse(k, lists);
    FusedIsRankedUnion(k, lists);
    var s :| s in fused && s.chunk.id == x;
    var t :| t in fused && t.chunk.id == y;
    var i :| 0 <= i < |fused| && fused[i] == s;
    var j :| 0 <= j < |fused| && fused[j] == t;
    assert IsItem(k, lists, s) && IsItem(k, lists, t);
  }

  /** A chunk that is ahead of another in both rankings stays ahead. */
  lemma AheadInBothStaysAhead(k: nat, a: seq<Chunk>, b: seq<Chunk>, i: nat, j: nat, p: nat, q: nat)
    requires Unrepeated(a) && Unrepeated(b) && i < j < |a| && p < q < |b|
    requires a[i].id == b[p].id && a[j].id == b[q].id
    ensures Precedes(Fuse(k, [a, b]), a[i].id, a[j].id)
  {
    ScoreOfTwo(k, a, b, a[i].id);
    ScoreOfTwo(k, a, b, a[j].id);
    ScoreAtRank(k, a, i);
    ScoreAtRank(k, a, j);
    ScoreAtRank(k, b, p);
    ScoreAtRank(k, b, q);
    RecipFalls(k + i + 1, k + j + 1);
    RecipFalls(k + p + 1, k + q + 1);
    assert Ids([a, b][0])[i] == a[i].id && Ids([a, b][0])[j] == a[j].id;
    HigherPrecedes(k, [a, b], a[i].id, a[j].id);
  }

  function Take<T>(s: seq<T>, n: nat): seq<T> {
    if n < |s| then s[..n] else s
  }

  predicate Kept(scored: seq<Scored>, id: int) {
    exists i :: 0 <= i < |scored| && scored[i].chunk.id == id
  }

  /** No cut of the fused list keeps a chunk from one search and drops a shared one. */
  lemma CutKeepsSharedFirst(k: nat, a: seq<Chunk>, b: seq<Chunk>, n: nat, x: int, y: int)
    requires Unrepeated(a) && Unrepeated(b) && |a| <= k + 1 && |b| <= k + 1
    requires x in Ids(a) && x in Ids(b) && InOne(a, b, y)
    requires Kept(Take(Fuse(k, [a, b]), n), y)
    ensures Kept(Take(Fuse(k, [a, b]), n), x)
  {
    var lists, fused := [a, b], Fuse(k, [a, b]);
    SharedBeatsSingle(k, a, b, x, y);
    assert x in Ids(lists[0]) && y in Ids(lists[0]) + Ids(lists[1]);
    assert y in Ids(lists[0]) || y in Ids(lists[1]);
    HigherPrecedes(k, lists, x, y);
    FusedIsRankedUnion(k, lists);
    var i, j :| 0 <= i < j < |fused| && fused[i].chunk.id == x && fused[j].chunk.id == y;
    var m :| 0 <= m < |Take(fused, n)| && Take(fused, n)[m].chunk.id == y;
    assert fused[m].chunk.id == y;
    assert m == j;
    assert Take(fused, n)[i].chunk.id == x;
  }
}
