/** The guarantees of `POST /query`, for every interleaving of the producer thread, the
    queue, timeouts, disconnects and cuts. */
module QueryGuarantees {
  import opened Basics
  import opened Fusion
  import opened Gate
  import opened Replay
  import opened EventStream
  import opened QueryStream
  import opened QuerySafety

  // ----- What is sent -----

  /** The frames sent always follow the grammar so far; they follow it to the end if the
      coroutine ends by itself, and stop before the last word if it sees a disconnect. */
  lemma FramesFollowTheGrammar(w: World, s: State)
    requires Reachable(w, s)
    ensures IsCutShort(w, s, s.sent)
    ensures s.consumer == Stopped(Finished) ==> IsWhole(w, s, s.sent)
    ensures s.consumer == Stopped(Disconnected) ==> IsBody(s.sent, s.scored, |s.fullText|)
  {
    ReachableKeeps(w, s);
    if s.consumer == Stopped(CutOff) {
    } else {
      FramesAreProper(w, s);
      FramesGoOn(w, s);
    }
  }

  lemma FramesAreProper(w: World, s: State)
    requires SentOk(w, s) && s.consumer != Stopped(CutOff)
    ensures IsProper(w, s, Frames(s))
  {}

  lemma FramesGoOn(w: World, s: State)
    requires IsProper(w, s, Frames(s))
    ensures IsCutShort(w, s, s.sent)
  {
    var rest := if s.consumer.Sending? then s.consumer.frames else [];
    assert s.sent + rest == Frames(s);
  }

  /** Where a last word can be in a proper sequence of frames. */
  lemma LastWordConcludes(w: World, s: State, fs: seq<Message>, m: Message)
    requires IsProper(w, s, fs) && m in fs && (m.Answered? || m.Refusal?)
    ensures m == Refusal(NoChunksRetrieved, [])
            || (s.ended && s.fullText == Joined(s.pulled) && m == Conclusion(w, s.fullText, s.scored))
  {
    var i :| 0 <= i < |fs| && fs[i] == m;
    if IsBody(fs, s.scored, LastCount(fs)) {
      InBody(fs, s.scored, LastCount(fs), i);
    } else if IsConcluded(w, s, fs) && i < |fs| - 2 {
      InBody(fs[..|fs| - 2], s.scored, |s.fullText|, i);
    }
  }

  lemma InBody(fs: seq<Message>, scored: seq<Scored>, chars: nat, i: nat)
    requires IsBody(fs, scored, chars) && i < |fs|
    ensures fs[i].Padding? || fs[i].Retrieval? || fs[i].Delta? || fs[i].Heartbeat?
  {
    assert i < 2 ==> fs[i] == fs[..2][i];
    assert i >= 2 ==> fs[i] == fs[2..][i - 2];
  }

  lemma SentLastWord(w: World, s: State, m: Message)
    requires Reachable(w, s) && m in s.sent && (m.Answered? || m.Refusal?)
    ensures m == Refusal(NoChunksRetrieved, [])
            || (s.ended && s.fullText == Joined(s.pulled) && m == Conclusion(w, s.fullText, s.scored))
  {
    FramesFollowTheGrammar(w, s);
    var rest :| IsProper(w, s, s.sent + rest);
    LastWordConcludes(w, s, s.sent + rest, m);
  }

  /** An error that is sent once the thread runs is the failure that the producer queued, or
      the verdict that the whole upstream text is malformed. */
  lemma FailureIsTheProducers(w: World, s: State, text: string)
    requires Reachable(w, s) && Failure(text) in s.sent && !s.producer.NotStarted?
    ensures HasFailed(s.producer, text)
            || (text == MALFORMED && s.ended && w.parse(Joined(s.pulled)).None?)
  {
    FramesFollowTheGrammar(w, s);
    var rest :| IsProper(w, s, s.sent + rest);
    FailureConcludes(w, s, s.sent + rest, text);
  }

  lemma FailureConcludes(w: World, s: State, fs: seq<Message>, text: string)
    requires IsProper(w, s, fs) && Failure(text) in fs && !s.producer.NotStarted?
    ensures HasFailed(s.producer, text)
            || (text == MALFORMED && s.ended && w.parse(Joined(s.pulled)).None?)
  {
    var i :| 0 <= i < |fs| && fs[i] == Failure(text);
    if IsBody(fs, s.scored, LastCount(fs)) {
      InBody(fs, s.scored, LastCount(fs), i);
    } else if IsConcluded(w, s, fs) && i < |fs| - 2 {
      InBody(fs[..|fs| - 2], s.scored, |s.fullText|, i);
    }
  }

  /** The page is that of a retrieved chunk with the cited id. */
  ghost predicate Resolves(c: Citation, page: Option<int>, scored: seq<Scored>) {
    page.Some? && exists i :: 0 <= i < |scored| && scored[i].chunk.id == c.chunk && scored[i].chunk.page == page.value
  }

  lemma ChunksById(scored: seq<Scored>, id: int)
    requires id in Ids(Chunks(scored))
    ensures id in ById(Chunks(scored))
    ensures exists i :: 0 <= i < |scored| && scored[i].chunk.id == id && scored[i].chunk == ById(Chunks(scored))[id]
  {
    var chunks := Chunks(scored);
    AddedOrNot(map[], [], chunks, id);
    AddedIsFrom(map[], chunks, id);
    var i :| 0 <= i < |chunks| && chunks[i] == ById(chunks)[id];
    assert scored[i].chunk == ById(chunks)[id];
  }

  /** An answer is sent only after the upstream ended normally and the gate passed what its
      whole text, every delta in order, parses to; and each citation resolves to the page
      of a retrieved chunk. */
  lemma AnswerIsGated(w: World, s: State, answer: Answer, pages: seq<Option<int>>)
    requires Reachable(w, s) && Answered(answer, pages) in s.sent
    ensures s.ended && w.parse(Joined(s.pulled)) == Some(answer) && LiveGate(w, answer, s.scored) == Passed
    ensures |pages| == |answer.citations|
    ensures forall i :: 0 <= i < |pages| ==> Resolves(answer.citations[i], pages[i], s.scored)
  {
    SentLastWord(w, s, Answered(answer, pages));
    assert CheckL2(answer, LiveContext(s.scored).retrieved).Passed?;
    forall i | 0 <= i < |pages| ensures Resolves(answer.citations[i], pages[i], s.scored) {
      PageResolves(answer, s.scored, i);
    }
  }

  lemma PageResolves(answer: Answer, scored: seq<Scored>, i: nat)
    requires CheckL2(answer, LiveContext(scored).retrieved).Passed? && i < |answer.citations|
    ensures Resolves(answer.citations[i], CitedPages(answer, scored)[i], scored)
  {
    var c := answer.citations[i];
    assert c.chunk in CitedIds(answer);
    var retrieved := LiveContext(scored).retrieved;
    assert c.chunk in CitedIds(answer) - retrieved <==> c.chunk !in retrieved;
    ChunksById(scored, c.chunk);
  }

  /** A refusal is sent only if nothing was retrieved, or for the reason that the gate
      gives about the whole upstream text. */
  lemma RefusalIsTheGates(w: World, s: State, why: Why, searched: seq<Page>)
    requires Reachable(w, s) && Refusal(why, searched) in s.sent && why.GateRefused?
    ensures s.ended && w.parse(Joined(s.pulled)).Some?
            && LiveGate(w, w.parse(Joined(s.pulled)).value, s.scored) == Refused(why.reason)
  {
    SentLastWord(w, s, Refusal(why, searched));
  }

  /** Fifteen seconds for each heartbeat. */
  function BeatTime(fs: seq<Message>): real {
    if fs == [] then 0.0
    else BeatTime(fs[..|fs| - 1]) + (if fs[|fs| - 1].Heartbeat? then HEARTBEAT_SECONDS else 0.0)
  }

  lemma {:induction false} GapsTakeTime(fs: seq<Message>, times: seq<real>, start: real, end: real)
    requires BeatsApart(fs, times, start) && BeatsUntil(fs, times, end) && start <= end
    ensures BeatTime(fs) <= end - start
  {
    if fs == [] {
    } else {
      var n := |fs| - 1;
      GapsTakeTime(fs[..n], times[..n], start, if fs[n].Heartbeat? then times[n] - HEARTBEAT_SECONDS else end);
    }
  }

  /** Any two heartbeats that were sent are more than 15 seconds apart, and each is so from
      the start of the stream; so there is at most one for each 15 seconds since then. */
  lemma HeartbeatsArePaced(w: World, s: State)
    requires Reachable(w, s)
    ensures BeatsApart(s.sent, s.sentAt, s.startedAt)
    ensures BeatTime(s.sent) <= s.now - s.startedAt
  {
    ReachableKeeps(w, s);
    GapsTakeTime(s.sent, s.sentAt, s.startedAt, s.now);
  }

  // ----- Cancellation -----

  /** An opened stream is closed at most once, and exactly once when the thread is done. */
  lemma StreamIsClosedOnce(w: World, s: State)
    requires Reachable(w, s)
    ensures s.closes <= 1
    ensures s.producer.Exited? ==> (s.closes == 1 <==> s.wasOpened)
  {
    ReachableKeeps(w, s);
  }

  /** How many more chunks the producer can pull, or deltas it can put, after a stop. */
  function PullsLeft(p: Producer): nat {
    if p.NotStarted? || p.Opening? || p.Pulling? || p.Holding? then 1 else 0
  }

  function PutsLeft(p: Producer): nat {
    if p.Holding? then 1 else 0
  }

  lemma {:induction false} AfterStopBounds(w: World, s: State, steps: seq<Step>, t: State)
    requires s.stop && s.consumer == Stopped(Disconnected) && Leads(w, s, steps, t)
    ensures t.stop && t.sent == s.sent
    ensures |t.pulled| + PullsLeft(t.producer) <= |s.pulled| + PullsLeft(s.producer)
    ensures t.queuedDeltas + PutsLeft(t.producer) <= s.queuedDeltas + PutsLeft(s.producer)
    decreases |steps|
  {
    if steps == [] {
    } else {
      AfterStopBounds(w, Apply(w, s, steps[0]), steps[1..], t);
    }
  }

  /** Once the stop flag is set, whatever happens next, at most one more chunk is pulled
      from the upstream, at most one more delta is queued, and nothing more is sent. */
  lemma StopIsPrompt(w: World, s: State, steps: seq<Step>, t: State)
    requires Reachable(w, s) && s.stop && Leads(w, s, steps, t)
    ensures |t.pulled| <= |s.pulled| + 1
    ensures t.queuedDeltas <= s.queuedDeltas + 1
    ensures t.sent == s.sent
  {
    ReachableKeeps(w, s);
    AfterStopBounds(w, s, steps, t);
  }

  // The condition of the promptness

  predicate StopsExactly(s: State) { s.stop <==> s.consumer == Stopped(Disconnected) }

  lemma {:induction false} StopsOverRun(w: World, s: State, steps: seq<Step>, t: State)
    requires StopsExactly(s) && Leads(w, s, steps, t)
    ensures StopsExactly(t)
    decreases |steps|
  {
    if steps == [] {
    } else {
      StopsOverRun(w, Apply(w, s, steps[0]), steps[1..], t);
    }
  }

  /** The flag is set if and only if the loop has seen the disconnect: not when the framework
      drops the coroutine. */
  lemma StopIsSeenDisconnect(w: World, s: State)
    requires Reachable(w, s)
    ensures s.stop <==> s.consumer == Stopped(Disconnected)
  {
    var now, steps :| Leads(w, Initial(now), steps, s);
    StopsOverRun(w, Initial(now), steps, s);
  }

  /** No continuation of a run that was cut sets it. */
  lemma {:induction false} CutNeverStops(w: World, s: State, steps: seq<Step>, t: State)
    requires s.consumer == Stopped(CutOff) && !s.stop && Leads(w, s, steps, t)
    ensures !t.stop
    decreases |steps|
  {
    if steps == [] {
    } else {
      CutNeverStops(w, Apply(w, s, steps[0]), steps[1..], t);
    }
  }

  function PulledOnce(s: State, text: string): State
    requires s.producer.Pulling? && text != ""
  {
    s.(pulled := s.pulled + [text], queue := s.queue + [DeltaItem(text)], queuedDeltas := s.queuedDeltas + 1)
  }

  lemma OnePull(w: World, s: State, text: string)
    requires s.producer.Pulling? && !s.stop && text != ""
    ensures Leads(w, s, [Pull(text), CheckStop, Put], PulledOnce(s, text))
  {
    var a := Apply(w, s, Pull(text));
    var b := Apply(w, a, CheckStop);
    assert [Pull(text), CheckStop, Put][1..] == [CheckStop, Put];
    assert [CheckStop, Put][1..] == [Put] && [Put][1..] == [];
    assert Apply(w, b, Put) == PulledOnce(s, text);
  }

  lemma {:induction false} LeadsOn(w: World, s: State, steps: seq<Step>, t: State, more: seq<Step>, u: State)
    requires Leads(w, s, steps, t) && Leads(w, t, more, u)
    ensures Leads(w, s, steps + more, u)
    decreases |steps|
  {
    if steps == [] {
      assert steps + more == more;
    } else {
      assert (steps + more)[1..] == steps[1..] + more;
      LeadsOn(w, Apply(w, s, steps[0]), steps[1..], t, more, u);
    }
  }

  /** While the flag is not set, the thread may go on pulling and queueing without bound. */
  lemma {:induction false} UnstoppedPullsOn(w: World, s: State, text: string, n: nat)
      returns (steps: seq<Step>, t: State)
    requires s.producer.Pulling? && !s.stop && text != ""
    ensures Leads(w, s, steps, t) && |t.pulled| == |s.pulled| + n && t.queuedDeltas == s.queuedDeltas + n
    ensures t.consumer == s.consumer && t.producer.Pulling?
    decreases n
  {
    if n == 0 {
      steps, t := [], s;
    } else {
      OnePull(w, s, text);
      var more;
      more, t := UnstoppedPullsOn(w, PulledOnce(s, text), text, n - 1);
      steps := [Pull(text), CheckStop, Put] + more;
      LeadsOn(w, s, [Pull(text), CheckStop, Put], PulledOnce(s, text), more, t);
    }
  }

  ghost predicate IsPrompt(w: World, s: State) {
    forall steps, t :: Leads(w, s, steps, t) ==> |t.pulled| <= |s.pulled| + 1
  }

  /** From a state in which the stream is being read, at most one more chunk is pulled
      whatever happens if and only if the loop has seen the disconnect. */
  lemma PromptExactly(w: World, s: State)
    requires Reachable(w, s) && s.producer.Pulling?
    ensures IsPrompt(w, s) <==> s.consumer == Stopped(Disconnected)
  {
    StopIsSeenDisconnect(w, s);
    if s.stop {
      forall steps, t | Leads(w, s, steps, t) ensures |t.pulled| <= |s.pulled| + 1 {
        StopIsPrompt(w, s, steps, t);
      }
    } else {
      var steps, t := UnstoppedPullsOn(w, s, "{", 2);
      assert Leads(w, s, steps, t);
    }
  }

  /** The state after the framework dropped the coroutine at its first poll. */
  function CutState(now: real, scored: seq<Scored>): State {
    State(Stopped(CutOff), [Padding, Retrieval(Searched(scored))], [now, now], scored, "", now, now, now, [], false,
          Pulling, [], false, true, 0, 0)
  }

  function RetrievedState(now: real, scored: seq<Scored>): State {
    Initial(now).(consumer := Sending([Retrieval(Searched(scored))], ToStart), sent := [Padding], sentAt := [now],
                  scored := scored)
  }

  lemma OneStep(w: World, s: State, step: Step, t: State)
    requires Enabled(s, step) && Apply(w, s, step) == t
    ensures Leads(w, s, [step], t)
  {
    assert [step][1..] == [];
  }

  lemma ThreeSteps(w: World, s: State, a: Step, b: Step, c: Step, t: State)
    requires Enabled(s, a) && Enabled(Apply(w, s, a), b) && Enabled(Apply(w, Apply(w, s, a), b), c)
    requires Apply(w, Apply(w, Apply(w, s, a), b), c) == t
    ensures Leads(w, s, [a, b, c], t)
  {
    var r := Apply(w, s, a);
    OneStep(w, s, a, r);
    OneStep(w, r, b, Apply(w, r, b));
    OneStep(w, Apply(w, r, b), c, t);
    LeadsOn(w, r, [b], Apply(w, r, b), [c], t);
    LeadsOn(w, s, [a], r, [b] + [c], t);
    assert [a] + ([b] + [c]) == [a, b, c];
  }

  lemma ToRetrieval(w: World, now: real, scored: seq<Scored>)
    requires scored != []
    ensures Leads(w, Initial(now), [Yield, Resume, Retrieved(scored)], RetrievedState(now, scored))
  {
    assert [Padding][1..] == [] && [] + [Padding] == [Padding] && [] + [now] == [now];
    ThreeSteps(w, Initial(now), Yield, Resume, Retrieved(scored), RetrievedState(now, scored));
  }

  lemma ToFirstPoll(w: World, now: real, scored: seq<Scored>)
    requires scored != []
    ensures Leads(w, RetrievedState(now, scored), [Yield, Resume, Open], CutState(now, scored).(consumer := Polling))
  {
    var m := Retrieval(Searched(scored));
    assert [m][1..] == [] && [Padding] + [m] == [Padding, m] && [now] + [now] == [now, now];
    ThreeSteps(w, RetrievedState(now, scored), Yield, Resume, Open, CutState(now, scored).(consumer := Polling));
  }

  lemma CutAtPoll(w: World, now: real, scored: seq<Scored>)
    ensures Leads(w, CutState(now, scored).(consumer := Polling), [Cut], CutState(now, scored))
  {
    assert [Cut][1..] == [];
  }

  /** It can be reached, on every retrieval that found something. */
  lemma CutIsReached(w: World, now: real, scored: seq<Scored>)
    requires scored != []
    ensures Reachable(w, CutState(now, scored))
  {
    var found, open := [Yield, Resume, Retrieved(scored)], [Yield, Resume, Open];
    var polling := CutState(now, scored).(consumer := Polling);
    ToRetrieval(w, now, scored);
    ToFirstPoll(w, now, scored);
    CutAtPoll(w, now, scored);
    LeadsOn(w, RetrievedState(now, scored), open, polling, [Cut], CutState(now, scored));
    LeadsOn(w, Initial(now), found, RetrievedState(now, scored), open + [Cut], CutState(now, scored));
  }

  /** From there any number of further deltas is pulled and queued for nobody. */
  lemma CutPullsOn(w: World, now: real, scored: seq<Scored>, text: string, n: nat)
      returns (s: State, steps: seq<Step>, t: State)
    requires scored != [] && text != ""
    ensures Reachable(w, s) && s.consumer == Stopped(CutOff) && s.producer.Pulling?
    ensures Leads(w, s, steps, t) && |t.pulled| == |s.pulled| + n && t.queuedDeltas == s.queuedDeltas + n
  {
    CutIsReached(w, now, scored);
    s := CutState(now, scored);
    steps, t := UnstoppedPullsOn(w, s, text, n);
  }

  // ----- What the browser sees -----

  function Name(m: Message): string {
    match m
    case Retrieval(_) => "retrieval"
    case Delta(_) => "delta"
    case Failure(_) => "error"
    case Refusal(_, _) => "refusal"
    case Answered(_, _) => "answer"
    case Done => "done"
    case _ => ""
  }

  /** `_sse` of the message, with `json.dumps` as a parameter. */
  function Wire(m: Message, json: Message -> string): Frame {
    match m
    case Padding => PADDING
    case Heartbeat => HEARTBEAT
    case _ => Event(Name(m), json(m))
  }

  function Wires(fs: seq<Message>, json: Message -> string): seq<Frame> {
    seq(|fs|, i requires 0 <= i < |fs| => Wire(fs[i], json))
  }

  /** The events that the messages are, comments left out. */
  function Seen(fs: seq<Message>, json: Message -> string): seq<Received> {
    if fs == [] then []
    else (if fs[0].Padding? || fs[0].Heartbeat? then [] else [Received(Name(fs[0]), json(fs[0]))]) + Seen(fs[1..], json)
  }

  ghost predicate IsJson(json: Message -> string) {
    forall m :: json(m) != "" && OneLine(json(m))
  }

  lemma {:induction false} SeenAreEvents(fs: seq<Message>, json: Message -> string)
    ensures EventsOf(Wires(fs, json)) == Seen(fs, json)
  {
    if fs == [] {
    } else {
      assert Wires(fs, json)[1..] == Wires(fs[1..], json);
      SeenAreEvents(fs[1..], json);
    }
  }

  lemma WiresAreClean(fs: seq<Message>, json: Message -> string)
    requires IsJson(json)
    ensures forall i :: 0 <= i < |fs| ==> Clean(Wires(fs, json)[i])
  {
    assert OneLine(PADDING.text);
    forall i | 0 <= i < |fs| ensures Clean(Wire(fs[i], json)) {}
  }

  /** End to end: however the network cuts the printed frames, the client's parser yields
      exactly the messages sent, in order. */
  lemma ClientSeesWhatWasSent(fs: seq<Message>, json: Message -> string, chunks: seq<string>)
    requires IsJson(json) && Joined(chunks) == Print(Wires(fs, json))
    ensures ReadAll("", chunks) == Seen(fs, json) && LeftOver("", chunks) == ""
    ensures forall e :: e in ReadAll("", chunks) ==> exists m :: m in fs && IsEventOf(e, m, json)
  {
    SeenAreNamed(fs, json);
    WiresAreClean(fs, json);
    RoundTrip(Wires(fs, json), chunks);
    SeenAreEvents(fs, json);
  }

  predicate IsLastWord(name: string) {
    name == "error" || name == "refusal" || name == "answer" || name == "done"
  }

  lemma {:induction false} SeenAppend(a: seq<Message>, b: seq<Message>, json: Message -> string)
    ensures Seen(a + b, json) == Seen(a, json) + Seen(b, json)
  {
    if a == [] {
      assert a + b == b;
    } else {
      assert (a + b)[1..] == a[1..] + b;
      SeenAppend(a[1..], b, json);
    }
  }

  lemma {:induction false} SeenProgress(fs: seq<Message>, json: Message -> string)
    requires forall i :: 0 <= i < |fs| ==> fs[i].Padding? || fs[i].Retrieval? || fs[i].Delta? || fs[i].Heartbeat?
    ensures forall e :: e in Seen(fs, json) ==> !IsLastWord(e.name)
  {
    if fs == [] {
    } else {
      SeenProgress(fs[1..], json);
    }
  }

  lemma WholeEnds(w: World, s: State, fs: seq<Message>)
    requires IsWhole(w, s, fs)
    ensures |fs| >= 2 && fs[|fs| - 1] == Done
    ensures fs[|fs| - 2].Failure? || fs[|fs| - 2].Refusal? || fs[|fs| - 2].Answered?
    ensures forall i :: 0 <= i < |fs| - 2 ==> fs[i].Padding? || fs[i].Retrieval? || fs[i].Delta? || fs[i].Heartbeat?
  {
    if IsConcluded(w, s, fs) {
      forall i | 0 <= i < |fs| - 2 ensures fs[i].Padding? || fs[i].Retrieval? || fs[i].Delta? || fs[i].Heartbeat? {
        InBody(fs[..|fs| - 2], s.scored, |s.fullText|, i);
      }
    }
  }

  lemma SeenAtTheEnd(front: seq<Message>, m: Message, json: Message -> string)
    requires m.Failure? || m.Refusal? || m.Answered?
    ensures Seen(front + [m, Done], json)
            == Seen(front, json) + [Received(Name(m), json(m)), Received("done", json(Done))]
  {
    SeenAppend(front, [m, Done], json);
    assert [m, Done][1..] == [Done] && [Done][1..] == [];
  }

  /** Exactly one of error, refusal and answer, as the last event before `done`. */
  predicate EndsOnce(seen: seq<Received>) {
    && |seen| >= 2 && seen[|seen| - 1].name == "done"
    && IsLastWord(seen[|seen| - 2].name) && seen[|seen| - 2].name != "done"
    && forall i :: 0 <= i < |seen| - 2 ==> !IsLastWord(seen[i].name)
  }

  lemma AppendEnd(seen: seq<Received>, last: Received, done: Received)
    requires forall e :: e in seen ==> !IsLastWord(e.name)
    requires IsLastWord(last.name) && last.name != "done" && done.name == "done"
    ensures EndsOnce(seen + [last, done])
  {
    var all := seen + [last, done];
    assert forall i :: 0 <= i < |all| - 2 ==> all[i] == seen[i] && seen[i] in seen;
  }

  lemma LastWordHasName(m: Message)
    requires m.Failure? || m.Refusal? || m.Answered?
    ensures IsLastWord(Name(m)) && Name(m) != "done"
  {
    assert "error"[0] != "done"[0] && "refusal"[0] != "done"[0] && "answer"[0] != "done"[0];
  }

  /** The event that a message is for the client. */
  predicate IsEventOf(e: Received, m: Message, json: Message -> string) {
    && e.data == json(m)
    && match m
       case Retrieval(_) => e.name == "retrieval"
       case Delta(_) => e.name == "delta"
       case Failure(_) => e.name == "error"
       case Refusal(_, _) => e.name == "refusal"
       case Answered(_, _) => e.name == "answer"
       case Done => e.name == "done"
       case _ => false
  }

  lemma {:induction false} SeenAreNamed(fs: seq<Message>, json: Message -> string)
    ensures forall e :: e in Seen(fs, json) ==> exists m :: m in fs && IsEventOf(e, m, json)
    ensures forall m :: m in fs && !m.Padding? && !m.Heartbeat? ==>
              exists e :: e in Seen(fs, json) && IsEventOf(e, m, json)
  {
    if fs == [] {
    } else {
      SeenAreNamed(fs[1..], json);
      var first := Received(Name(fs[0]), json(fs[0]));
      assert fs == [fs[0]] + fs[1..];
      assert fs[0].Padding? || fs[0].Heartbeat? || (IsEventOf(first, fs[0], json) && first in Seen(fs, json));
    }
  }

  /** The client sees the last word under its own name, then `done`. */
  predicate EndsWith(seen: seq<Received>, last: Message, json: Message -> string) {
    && |seen| >= 2 && IsEventOf(seen[|seen| - 2], last, json) && IsEventOf(seen[|seen| - 1], Done, json)
  }

  lemma {:induction false} EndIsSeen(seen: seq<Received>, m: Message, json: Message -> string)
    requires m.Failure? || m.Refusal? || m.Answered?
    ensures EndsWith(seen + [Received(Name(m), json(m)), Received("done", json(Done))], m, json)
  {}

  lemma {:induction false} WholeIsSeenToEnd(w: World, s: State, fs: seq<Message>, json: Message -> string)
    requires IsWhole(w, s, fs)
    ensures EndsOnce(Seen(fs, json))
  {
    WholeEnds(w, s, fs);
    var front, m := fs[..|fs| - 2], fs[|fs| - 2];
    assert fs == front + [m, Done];
    SeenProgress(front, json);
    SeenAtTheEnd(front, m, json);
    LastWordHasName(m);
    AppendEnd(Seen(front, json), Received(Name(m), json(m)), Received("done", json(Done)));
  }

  lemma {:induction false} EndOfSeen(front: seq<Message>, m: Message, json: Message -> string)
    requires m.Failure? || m.Refusal? || m.Answered?
    ensures EndsWith(Seen(front + [m, Done], json), m, json)
  {
    SeenAtTheEnd(front, m, json);
    EndIsSeen(Seen(front, json), m, json);
  }

  lemma {:induction false} EndIsSeenInAll(fs: seq<Message>, json: Message -> string)
    requires |fs| >= 2 && fs[|fs| - 1] == Done
    requires fs[|fs| - 2].Failure? || fs[|fs| - 2].Refusal? || fs[|fs| - 2].Answered?
    ensures EndsWith(Seen(fs, json), fs[|fs| - 2], json)
  {
    EndOfSeen(fs[..|fs| - 2], fs[|fs| - 2], json);
    assert fs == fs[..|fs| - 2] + [fs[|fs| - 2], Done];
  }

  lemma {:induction false} FinishedIsSeen(w: World, s: State, json: Message -> string)
    requires Reachable(w, s) && s.consumer == Stopped(Finished)
    ensures EndsOnce(Seen(s.sent, json))
    ensures |s.sent| >= 2 && EndsWith(Seen(s.sent, json), s.sent[|s.sent| - 2], json)
  {
    FramesFollowTheGrammar(w, s);
    WholeIsSeenToEnd(w, s, s.sent, json);
    WholeEnds(w, s, s.sent);
    EndIsSeenInAll(s.sent, json);
  }

  /** What a response that ends by itself shows the client. */
  lemma {:induction false} ClientSeesOneLastWord(w: World, s: State, json: Message -> string, chunks: seq<string>)
    requires Reachable(w, s) && s.consumer == Stopped(Finished)
    requires IsJson(json) && Joined(chunks) == Print(Wires(s.sent, json))
    ensures EndsOnce(ReadAll("", chunks))
    ensures |s.sent| >= 2 && EndsWith(ReadAll("", chunks), s.sent[|s.sent| - 2], json)
  {
    FinishedIsSeen(w, s, json);
    ClientSeesWhatWasSent(s.sent, json, chunks);
  }
}
