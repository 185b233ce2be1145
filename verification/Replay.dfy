/** A generation is stored with the cited chunks only (eval/runner_v2.py), and decided again
    from the stored JSON (eval/ablation.py). The decision is the one that the live service
    takes over everything it retrieved (api/query_service.py). */
module Replay {
  import opened Basics
  import opened Numbers
  import opened NumberRoundTrip
  import opened Fusion
  import opened Gate

  // ----- The live context -----

  function Texts(chunks: map<int, Chunk>): map<int, string> {
    map id | id in chunks :: chunks[id].text
  }

  function Scales(chunks: map<int, Chunk>): map<int, Option<string>> {
    map id | id in chunks :: chunks[id].scale
  }

  function LiveContext(scored: seq<Scored>): Context {
    Context((set id | id in Ids(Chunks(scored))), Texts(ById(Chunks(scored))), Scales(ById(Chunks(scored))))
  }

  function LiveMargin(scored: seq<Scored>): Margin {
    if scored == [] then Margin(0.0, None)
    else Margin(scored[0].score, if |scored| > 1 then Some(scored[1].score) else None)
  }

  // ----- The stored record -----

  /** A JSON object is a list of entries with string keys. */
  datatype Entry<V> = Entry(key: string, value: V)

  datatype Stored = Stored(answer: Answer, retrieved: seq<int>, texts: seq<Entry<string>>,
                           scales: seq<Entry<Option<string>>>, top1: Option<real>, top2: Option<real>)

  /** How JSON prints an integer key. */
  function IntText(n: int): string {
    (if n < 0 then "-" else "") + Digits(Abs(n))
  }

  predicate IsIntText(s: string) {
    var digits := if s != "" && s[0] == '-' then s[1..] else s;
    digits != "" && All(digits, IsDigit)
  }

  /** `int(k)` */
  function ReadInt(s: string): int
    requires IsIntText(s)
  {
    if s[0] == '-' then
      var n: int := NatValue(s[1..]);
      -n
    else NatValue(s)
  }

  predicate IntKeys<V>(entries: seq<Entry<V>>) {
    forall i :: 0 <= i < |entries| ==> IsIntText(entries[i].key)
  }

  /** `{int(k): v for k, v in entries.items()}` */
  function ReadKeys<V>(entries: seq<Entry<V>>): map<int, V>
    requires IntKeys(entries)
  {
    if entries == [] then map[]
    else
      var last := entries[|entries| - 1];
      ReadKeys(entries[..|entries| - 1])[ReadInt(last.key) := last.value]
  }

  /** A record that `decide` can read. */
  type Record = s: Stored | IntKeys(s.texts) && IntKeys(s.scales)
    witness Stored(Answer(false, None, None, None, [], None, []), [], [], [], None, None)

  /** `{cid: ... for cid in cited_ids if cid in chunk_by_id}`, in the order that the set
      of cited ids happens to be listed in. */
  function Entries<V>(listed: seq<int>, byId: map<int, V>): (entries: seq<Entry<V>>)
    ensures IntKeys(entries)
  {
    if listed == [] then []
    else
      var id := listed[|listed| - 1];
      IntTextIsInt(id);
      Entries(listed[..|listed| - 1], byId) + (if id in byId then [Entry(IntText(id), byId[id])] else [])
  }

  /** `generate_for_record`, for an answer of the model over the retrieved chunks. */
  function Store(answer: Answer, scored: seq<Scored>, listed: seq<int>): Record {
    var chunks := ById(Chunks(scored));
    Stored(answer, Ids(Chunks(scored)), Entries(listed, Texts(chunks)), Entries(listed, Scales(chunks)),
           if scored != [] then Some(scored[0].score) else None,
           if |scored| > 1 then Some(scored[1].score) else None)
  }

  function StoredContext(r: Record): Context {
    Context((set id | id in r.retrieved), ReadKeys(r.texts), ReadKeys(r.scales))
  }

  function StoredMargin(r: Record): Option<Margin> {
    if r.top1.Some? then Some(Margin(r.top1.value, r.top2)) else None
  }

  function Decide(r: Record, rerank: Reranker, layers: set<Layer>, l3bThreshold: real, l1Threshold: real): Verdict {
    ApplyGate(r.answer, StoredContext(r), rerank, Settings(layers, l3bThreshold, StoredMargin(r), l1Threshold))
  }

  // ----- Keys survive the round trip through JSON -----

  lemma IntTextIsInt(n: int)
    ensures IsIntText(IntText(n))
  {
    var digits := Digits(Abs(n));
    assert ("-" + digits)[1..] == digits && "" + digits == digits;
  }

  lemma ReadIntText(n: int)
    ensures IsIntText(IntText(n)) && ReadInt(IntText(n)) == n
  {
    IntTextIsInt(n);
    ReadDigits(Abs(n));
    var digits := Digits(Abs(n));
    assert ("-" + digits)[1..] == digits && "" + digits == digits;
  }

  function Listed<V>(listed: seq<int>, byId: map<int, V>): map<int, V> {
    map id | id in byId && id in listed :: byId[id]
  }

  lemma ListOneMore<V>(front: seq<int>, id: int, byId: map<int, V>)
    ensures Listed(front + [id], byId)
            == if id in byId then Listed(front, byId)[id := byId[id]] else Listed(front, byId)
  {}

  /** Exactly the listed entries come back, with their values. */
  lemma {:induction false} EntriesAreRead<V>(listed: seq<int>, byId: map<int, V>)
    ensures ReadKeys(Entries(listed, byId)) == Listed(listed, byId)
  {
    if listed == [] {
    } else {
      var front, id := listed[..|listed| - 1], listed[|listed| - 1];
      EntriesAreRead(front, byId);
      assert listed == front + [id];
      ListOneMore(front, id, byId);
      AddEntry(front, id, byId);
    }
  }

  lemma AddEntry<V>(front: seq<int>, id: int, byId: map<int, V>)
    ensures ReadKeys(Entries(front + [id], byId))
            == if id in byId then ReadKeys(Entries(front, byId))[id := byId[id]] else ReadKeys(Entries(front, byId))
  {
    ReadIntText(id);
    assert (front + [id])[..|front|] == front;
    var entries := Entries(front, byId);
    assert entries + [] == entries;
    if id in byId {
      ReadOneMore(entries, Entry(IntText(id), byId[id]));
    }
  }

  lemma ReadOneMore<V>(entries: seq<Entry<V>>, e: Entry<V>)
    requires IntKeys(entries) && IsIntText(e.key)
    ensures IntKeys(entries + [e]) && ReadKeys(entries + [e]) == ReadKeys(entries)[ReadInt(e.key) := e.value]
  {
    assert (entries + [e])[..|entries|] == entries;
  }

  // ----- The gate looks at cited chunks only -----

  /** The two contexts agree about the cited chunks, and on which chunks were retrieved. */
  predicate AlikeWhereCited(answer: Answer, a: Context, b: Context) {
    && a.retrieved == b.retrieved
    && forall id :: id in CitedIds(answer) ==> AlikeAt(id, a, b)
  }

  predicate AlikeAt(id: int, a: Context, b: Context) {
    && (id in a.texts <==> id in b.texts) && (id in a.texts ==> a.texts[id] == b.texts[id])
    && (if id in a.scales then a.scales[id] else None) == (if id in b.scales then b.scales[id] else None)
  }

  lemma {:induction false} OperandsAlike(operands: seq<Operand>, a: Context, b: Context)
    requires forall o :: o in operands ==> AlikeAt(o.chunk, a, b)
    ensures CheckOperands(operands, a) == CheckOperands(operands, b)
  {
    if operands == [] {
    } else {
      assert operands[0] in operands;
      OperandsAlike(operands[1..], a, b);
    }
  }

  lemma {:induction false} ValueAlike(value: real, scale: Option<string>, citations: seq<Citation>,
                                      a: Context, b: Context)
    requires forall c :: c in citations ==> AlikeAt(c.chunk, a, b)
    ensures CheckValue(value, scale, citations, a) == CheckValue(value, scale, citations, b)
    ensures CitedTexts(citations, a.texts) == CitedTexts(citations, b.texts)
  {
    if citations == [] {
    } else {
      assert citations[0] in citations;
      ValueAlike(value, scale, citations[1..], a, b);
    }
  }

  /** What the gate answers, and why, depends on the cited chunks only. */
  lemma GateReadsCitedOnly(answer: Answer, a: Context, b: Context, rerank: Reranker, s: Settings)
    requires AlikeWhereCited(answer, a, b)
    ensures ApplyGate(answer, a, rerank, s) == ApplyGate(answer, b, rerank, s)
  {
    assert forall o :: o in answer.operands ==> o.chunk in CitedIds(answer);
    assert forall c :: c in answer.citations ==> c.chunk in CitedIds(answer);
    OperandsAlike(answer.operands, a, b);
    ValueAlike(if answer.value.Some? then answer.value.value else 0.0, answer.scale, answer.citations, a, b);
  }

  // ----- Replay equals live -----

  lemma StoredIsAlike(answer: Answer, scored: seq<Scored>, listed: seq<int>)
    requires forall id :: id in listed <==> id in CitedIds(answer)
    ensures AlikeWhereCited(answer, StoredContext(Store(answer, scored, listed)), LiveContext(scored))
  {
    EntriesAreRead(listed, Texts(ById(Chunks(scored))));
    EntriesAreRead(listed, Scales(ById(Chunks(scored))));
  }

  /** For every answer and retrieval, every reranker, all thresholds and every set of
      layers without L1, the decision from the stored record is the live decision, down to
      the reason. With L1 it is so exactly if anything was retrieved: the live service takes
      a missing score for 0, and the replay refuses. */
  lemma ReplayEqualsLive(answer: Answer, scored: seq<Scored>, listed: seq<int>, rerank: Reranker,
                         layers: set<Layer>, l3bThreshold: real, l1Threshold: real)
    requires forall id :: id in listed <==> id in CitedIds(answer)
    ensures Decide(Store(answer, scored, listed), rerank, layers, l3bThreshold, l1Threshold)
            == ApplyGate(answer, LiveContext(scored), rerank,
                         Settings(layers, l3bThreshold, Some(LiveMargin(scored)), l1Threshold))
            <==> (L1 in layers ==> scored != [])
  {
    var r := Store(answer, scored, listed);
    StoredIsAlike(answer, scored, listed);
    GateReadsCitedOnly(answer, StoredContext(r), LiveContext(scored), rerank,
                       Settings(layers, l3bThreshold, StoredMargin(r), l1Threshold));
  }

  /** Against api/routes_query.py:46-49, which says that a margin is never negative: a
      threshold of zero does reject, but only a lone result with a negative score. */
  lemma ZeroMarginRejectsOnlyALoneResult(scored: seq<Scored>)
    requires forall i, j :: 0 <= i < j < |scored| ==> scored[i].score >= scored[j].score
    ensures CheckL1(Some(LiveMargin(scored)), 0.0).Passed? <==> !(|scored| == 1 && scored[0].score < 0.0)
  {}
}
