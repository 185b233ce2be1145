/** When `POST /query` answers: what the last word on a whole upstream text is, told from the
    parsed answer and the retrieved chunks alone. */
module QueryVerdict {
  import opened Basics
  import opened Fusion
  import opened Gate
  import opened GateSafety
  import opened Replay
  import opened EventStream
  import opened QueryStream
  import opened QuerySafety
  import QueryGuarantees

  // ----- The retrieved context -----

  function RetrievedIds(scored: seq<Scored>): set<int> {
    set i | 0 <= i < |scored| :: scored[i].chunk.id
  }

  /** Chunk i is the last of the retrieved chunks with its id; there is one, as a rule. */
  predicate IsLastOfId(scored: seq<Scored>, i: nat) {
    i < |scored| && forall j :: i < j < |scored| ==> scored[j].chunk.id != scored[i].chunk.id
  }

  lemma {:induction false} LastIsMapped(byId: map<int, Chunk>, chunks: seq<Chunk>, i: nat)
    requires i < |chunks| && forall j :: i < j < |chunks| ==> chunks[j].id != chunks[i].id
    ensures chunks[i].id in AddChunks(byId, chunks) && AddChunks(byId, chunks)[chunks[i].id] == chunks[i]
  {
    if i == |chunks| - 1 {
    } else {
      LastIsMapped(byId, chunks[..|chunks| - 1], i);
    }
  }

  /** The live context has the retrieved ids, each with the text and the scale of its chunk. */
  lemma LiveContextIsRetrieved(scored: seq<Scored>)
    ensures var ctx := LiveContext(scored);
            && ctx.retrieved == RetrievedIds(scored)
            && ctx.texts.Keys == RetrievedIds(scored) && ctx.scales.Keys == RetrievedIds(scored)
            && forall i: nat :: IsLastOfId(scored, i) ==>
                 ctx.texts[scored[i].chunk.id] == scored[i].chunk.text
                 && ctx.scales[scored[i].chunk.id] == scored[i].chunk.scale
  {
    var ids, chunks := Ids(Chunks(scored)), Chunks(scored);
    assert |ids| == |scored| && forall i :: 0 <= i < |scored| ==> ids[i] == scored[i].chunk.id;
    forall id ensures id in ById(chunks) <==> id in RetrievedIds(scored) {
      AddedOrNot(map[], [], chunks, id);
      assert id in ids <==> exists i :: 0 <= i < |scored| && scored[i].chunk.id == id;
    }
    forall i: nat | IsLastOfId(scored, i) ensures ById(chunks)[scored[i].chunk.id] == scored[i].chunk {
      LastIsMapped(map[], chunks, i);
    }
  }

  // ----- The last word -----

  /** What an answer must be to be sent. */
  ghost predicate MayBeSent(answer: Answer, scored: seq<Scored>, rerank: Reranker)
    requires ScoresEach(rerank)
  {
    && answer.sufficient
    && CitesOnly(answer, RetrievedIds(scored))
    && Grounded(answer, LiveContext(scored))
    && Supported(answer, LiveContext(scored).texts, rerank, 0.0)
  }

  lemma LiveGateExactly(w: World, answer: Answer, scored: seq<Scored>)
    requires ScoresEach(w.rerank)
    ensures LiveGate(w, answer, scored).Passed? <==> MayBeSent(answer, scored, w.rerank)
  {
    GatePassesExactly(answer, LiveContext(scored), w.rerank,
                      Settings(LIVE_LAYERS, 0.0, Some(LiveMargin(scored)), 0.0));
    LiveContextIsRetrieved(scored);
  }

  lemma WholeTextIsConcluded(w: World, s: State)
    requires Reachable(w, s) && s.consumer == Stopped(Finished) && s.ended
    ensures |s.sent| >= 2 && s.sent[|s.sent| - 2] == Conclusion(w, Joined(s.pulled), s.scored)
  {
    ReachableKeeps(w, s);
    EndedIsConcluded(w, s);
  }

  lemma EndedIsConcluded(w: World, s: State)
    requires TextOk(s) && UpstreamOk(s) && IsWhole(w, s, s.sent) && s.ended
    ensures |s.sent| >= 2 && s.sent[|s.sent| - 2] == Conclusion(w, Joined(s.pulled), s.scored)
  {}

  /** Once the upstream gave its whole text and the coroutine ended by itself, the last word
      is the parsed answer if and only if that is sufficient, cites retrieved chunks only,
      shows its figures in the chunks it cites and has support for its prose. It is an error
      exactly if the text does not parse. */
  lemma AnswerExactly(w: World, s: State)
    requires Reachable(w, s) && s.consumer == Stopped(Finished) && s.ended && ScoresEach(w.rerank)
    ensures |s.sent| >= 2
    ensures var last, parsed := s.sent[|s.sent| - 2], w.parse(Joined(s.pulled));
            && (last.Answered? <==> parsed.Some? && MayBeSent(parsed.value, s.scored, w.rerank))
            && (last.Answered? ==> last.answer == parsed.value)
            && (last.Failure? <==> parsed.None?)
            && (last.Failure? || last.Refusal? || last.Answered?)
  {
    WholeTextIsConcluded(w, s);
    var parsed := w.parse(Joined(s.pulled));
    if parsed.Some? {
      LiveGateExactly(w, parsed.value, s.scored);
    }
  }

  /** A refusal that is sent after the upstream ended gives a reason that is true of the
      parsed answer and the retrieved chunks. */
  lemma SentRefusalIsTrue(w: World, s: State, reason: Reason, searched: seq<Page>)
    requires Reachable(w, s) && Refusal(GateRefused(reason), searched) in s.sent && ScoresEach(w.rerank)
    ensures s.ended && w.parse(Joined(s.pulled)).Some?
    ensures Justified(reason, w.parse(Joined(s.pulled)).value, LiveContext(s.scored), w.rerank,
                      Settings({L2, L3}, 0.0, None, 0.0))
  {
    QueryGuarantees.RefusalIsTheGates(w, s, GateRefused(reason), searched);
    RefusalIsJustified(w.parse(Joined(s.pulled)).value, LiveContext(s.scored), w.rerank,
                       Settings(LIVE_LAYERS, 0.0, Some(LiveMargin(s.scored)), 0.0));
  }

  // ----- What was searched -----

  /** The frame of the retrieval lists the retrieved chunks and their pages, in order. */
  lemma SearchedIsRetrieved(scored: seq<Scored>)
    ensures |Searched(scored)| == |scored|
    ensures forall i :: 0 <= i < |scored| ==>
              Searched(scored)[i].chunk == scored[i].chunk.id && Searched(scored)[i].page == scored[i].chunk.page
  {}
}
