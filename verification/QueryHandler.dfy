/** The two loops of `POST /query` as they are written: the consumer coroutine of
    api/routes_query.py and the worker thread around `stream_structured` of
    eval/gemini_client.py. Each runs while the other, the clock and the framework take any
    steps between its own; whatever they do together is a run of module QueryStream, so its
    guarantees hold of them. */
module QueryHandler {
  import opened Basics
  import opened Fusion
  import opened QueryStream
  import opened QuerySafety
  import QueryGuarantees

  lemma StaysReachable(w: World, s: State, step: Step)
    requires Reachable(w, s) && Enabled(s, step)
    ensures Reachable(w, Apply(w, s, step))
  {
    var now, steps :| Leads(w, Initial(now), steps, s);
    QueryGuarantees.OneStep(w, s, step, Apply(w, s, step));
    QueryGuarantees.LeadsOn(w, Initial(now), steps, s, [step], Apply(w, s, step));
  }

  /** What the coroutine and the thread share. */
  class Exchange {
    const w: World
    var s: State

    ghost predicate Valid()
      reads this
    {
      Reachable(w, s)
    }

    constructor (w: World, now: real)
      ensures Valid() && this.w == w && s == Initial(now)
    {
      this.w := w;
      s := Initial(now);
      new;
      assert Leads(w, Initial(now), [], s);
    }

    method Take(step: Step)
      requires Valid() && Enabled(s, step)
      modifies this
      ensures Valid() && s == Apply(w, old(s), step)
    {
      StaysReachable(w, s, step);
      s := Apply(w, s, step);
    }

    /** Any steps of the thread and of the clock. */
    method LetThreadRun()
      requires Valid()
      modifies this
      ensures Valid() && SameConsumer(old(s), s)
    {
      var n: nat := *;
      while n > 0
        invariant Valid() && SameConsumer(old(s), s)
      {
        var step: Step := *;
        if Enabled(s, step) && (step.Tick? || IsProducerStep(step)) {
          if IsProducerStep(step) {
            ProducerKeepsConsumer(w, s, step);
          }
          Take(step);
        }
        n := n - 1;
      }
    }

    /** Any steps of the coroutine, of the framework and of the clock. */
    method LetCoroutineRun()
      requires Valid() && !s.producer.NotStarted?
      modifies this
      ensures Valid() && SameProducer(old(s), s)
    {
      var n: nat := *;
      while n > 0
        invariant Valid() && SameProducer(old(s), s)
      {
        var step: Step := *;
        if Enabled(s, step) && !IsProducerStep(step) {
          ReachableKeeps(w, s);
          ConsumerKeepsProducer(w, s, step);
          Take(step);
        }
        n := n - 1;
      }
    }
  }

  predicate SameConsumer(s: State, t: State) {
    && t.consumer == s.consumer && t.sent == s.sent && t.scored == s.scored && t.fullText == s.fullText
    && t.startedAt == s.startedAt && t.lastHeartbeat == s.lastHeartbeat && t.stop == s.stop
  }

  predicate SameProducer(s: State, t: State) {
    && t.producer == s.producer && t.pulled == s.pulled && t.ended == s.ended && t.wasOpened == s.wasOpened
    && t.closes == s.closes && t.queuedDeltas == s.queuedDeltas && (s.stop ==> t.stop)
  }

  lemma ConsumerKeepsProducer(w: World, s: State, step: Step)
    requires Enabled(s, step) && !IsProducerStep(step) && TextOk(s) && !s.producer.NotStarted?
    ensures SameProducer(s, ApplyConsumer(w, s, step))
  {}

  // ----- The coroutine -----

  class Coroutine {
    const x: Exchange
    var fullText: string
    var lastHeartbeat: real
    var disconnected: bool

    ghost predicate Valid()
      reads this, x
    {
      && x.Valid() && fullText == x.s.fullText && lastHeartbeat == x.s.lastHeartbeat
      && (disconnected <==> x.s.consumer == Stopped(Disconnected))
    }

    constructor (x: Exchange)
      requires x.Valid() && x.s.consumer == Sending([Padding], ToRetrieve) && x.s.fullText == ""
      ensures Valid() && this.x == x
    {
      this.x := x;
      fullText, lastHeartbeat, disconnected := "", x.s.lastHeartbeat, false;
    }

    /** Yields the next frame; false if the framework drops the coroutine there. */
    method YieldOne() returns (alive: bool)
      requires Valid() && x.s.consumer.Sending? && x.s.consumer.frames != []
      modifies x
      ensures Valid() && x.s.fullText == old(x.s.fullText) && x.s.scored == old(x.s.scored)
      ensures alive ==>
        && x.s.consumer == old(x.s.consumer.(frames := x.s.consumer.frames[1..]))
        && x.s.sent == old(x.s.sent + [x.s.consumer.frames[0]])
      ensures !alive ==> x.s.consumer == Stopped(CutOff)
    {
      x.LetThreadRun();
      if * {
        x.Take(Cut);
        return false;
      }
      x.Take(Yield);
      return true;
    }

    lemma OneFrameMoved(sent: seq<Message>, frames: seq<Message>)
      requires frames != []
      ensures sent + [frames[0]] + frames[1..] == sent + frames
    {}

    /** Yields the pending frames one after the other; false if the framework drops the
        coroutine at one of them. */
    method YieldAll() returns (alive: bool)
      requires Valid() && x.s.consumer.Sending?
      modifies x, this`lastHeartbeat
      ensures Valid() && x.s.fullText == old(x.s.fullText) && x.s.scored == old(x.s.scored)
      ensures alive ==> x.s.consumer == AfterFrames(old(x.s.consumer.next))
      ensures alive ==> x.s.sent == old(x.s.sent + x.s.consumer.frames)
      ensures !alive ==> x.s.consumer == Stopped(CutOff)
    {
      ghost var all := x.s.sent + x.s.consumer.frames;
      while x.s.consumer.frames != []
        invariant Valid() && x.s.consumer.Sending? && x.s.consumer.next == old(x.s.consumer.next)
        invariant x.s.fullText == old(x.s.fullText) && x.s.scored == old(x.s.scored)
        invariant x.s.sent + x.s.consumer.frames == all
        decreases |x.s.consumer.frames|
      {
        OneFrameMoved(x.s.sent, x.s.consumer.frames);
        var sent := YieldOne();
        if !sent {
          return false;
        }
      }
      assert x.s.sent + [] == x.s.sent;
      x.LetThreadRun();
      x.Take(Resume);
      lastHeartbeat := x.s.lastHeartbeat;
      return true;
    }

    /** One turn of the loop; false when it is left. */
    method Turn() returns (again: bool)
      requires Valid() && x.s.consumer == Polling
      modifies x, this
      ensures Valid()
      ensures again <==> x.s.consumer == Polling
      ensures again || x.s.consumer.Parsing? || x.s.consumer.Stopped?
      ensures again ==> TurnedTo(old(fullText), old(x.s.sent), fullText, x.s.sent)
    {
      x.LetThreadRun();
      if * {
        x.Take(SeeDisconnect);
        disconnected := true;
        return false;
      }
      x.Take(SeeConnected);
      again := AwaitItem();
    }

    /** `asyncio.wait_for(queue.get(), timeout)` and what follows it. */
    method AwaitItem() returns (again: bool)
      requires Valid() && x.s.consumer == Waiting
      modifies x, this
      ensures Valid() && (again <==> x.s.consumer == Polling)
      ensures again || x.s.consumer.Parsing? || x.s.consumer.Stopped?
      ensures again ==> TurnedTo(old(fullText), old(x.s.sent), fullText, x.s.sent)
    {
      x.LetThreadRun();
      if * {
        x.Take(Cut);
        return false;
      }
      if x.s.queue == [] {
        again := TimedOut();
      } else {
        again := GetItem();
      }
    }

    /** `asyncio.TimeoutError`: a heartbeat, if the last one is long ago. */
    method TimedOut() returns (again: bool)
      requires Valid() && x.s.consumer == Waiting
      modifies x, this`lastHeartbeat
      ensures Valid() && (again <==> x.s.consumer == Polling) && (again || x.s.consumer.Stopped?)
      ensures fullText == x.s.fullText
      ensures again ==>
        && fullText == old(fullText)
        && x.s.sent == if old(x.s.now - lastHeartbeat) > 15.0 then old(x.s.sent) + [Heartbeat] else old(x.s.sent)
    {
      var silent := x.s.now - lastHeartbeat > HEARTBEAT_SECONDS;
      x.Take(TimeOut);
      again := true;
      if silent {
        again := YieldAll();
      }
    }

    /** `queue.get()` and the branches on the kind of the item. */
    method GetItem() returns (again: bool)
      requires Valid() && x.s.consumer == Waiting && x.s.queue != []
      modifies x, this
      ensures Valid() && (again <==> x.s.consumer == Polling)
      ensures again || x.s.consumer.Parsing? || x.s.consumer.Stopped?
      ensures again ==> TurnedTo(old(fullText), old(x.s.sent), fullText, x.s.sent)
    {
      var item := x.s.queue[0];
      x.Take(Get);
      match item {
        case DeltaItem(text) =>
          fullText := fullText + text;
          again := YieldAll();
        case ErrorItem(_) =>
          var alive := YieldAll();
          return false;
        case EndItem =>
          return false;
      }
    }

    /** The end of a stream that was read to its end: parse, gate, last word. */
    method Finish() returns (alive: bool)
      requires Valid() && x.s.consumer == Parsing
      modifies x, this`lastHeartbeat
      ensures Valid() && x.s.consumer.Stopped?
      ensures alive ==> x.s.sent == old(x.s.sent) + [Conclusion(x.w, old(fullText), old(x.s.scored)), Done]
    {
      var last := Judge();
      x.Take(Conclude);
      assert x.s.consumer.frames == [last, Done];
      alive := YieldAll();
    }

    method Judge() returns (last: Message)
      requires Valid()
      ensures last == Conclusion(x.w, fullText, x.s.scored)
    {
      var parsed := x.w.parse(fullText);
      if parsed.None? {
        return Failure(MALFORMED);
      }
      var verdict := LiveGate(x.w, parsed.value, x.s.scored);
      if verdict.Refused? {
        return Refusal(GateRefused(verdict.reason), Searched(x.s.scored));
      }
      var byId := ById(Chunks(x.s.scored));
      var pages: seq<Option<int>> := [];
      for i := 0 to |parsed.value.citations|
        invariant pages == CitedPages(parsed.value, x.s.scored)[..i]
      {
        pages := pages + [CitedPage(parsed.value.citations[i], byId)];
      }
      return Answered(parsed.value, pages);
    }

    /** `event_stream`, with what the retrieval gives. A response that the framework does
        not let end is cut after some turn. */
    method Respond(retrieved: Option<seq<Scored>>)
      requires Valid() && x.s.consumer == Sending([Padding], ToRetrieve) && x.s.sent == []
      modifies x, this
      ensures Valid() && x.s.consumer.Stopped?
      ensures IsCutShort(x.w, x.s, x.s.sent)
      ensures x.s.consumer == Stopped(Finished) ==> IsWhole(x.w, x.s, x.s.sent)
      ensures disconnected ==> IsBody(x.s.sent, x.s.scored, |fullText|)
    {
      var again := YieldAll();
      if again {
        again := SendRetrieval(retrieved);
      }
      var turns: nat := *;
      while again && turns > 0
        invariant Valid()
        invariant if again then x.s.consumer == Polling else x.s.consumer.Parsing? || x.s.consumer.Stopped?
      {
        again := Turn();
        turns := turns - 1;
      }
      if again {
        x.Take(Cut);
      } else if x.s.consumer.Parsing? {
        var alive := Finish();
      }
      QueryGuarantees.FramesFollowTheGrammar(x.w, x.s);
    }

    /** The retrieval frame, or the early ends; true if the thread was started. */
    method SendRetrieval(retrieved: Option<seq<Scored>>) returns (started: bool)
      requires Valid() && x.s.consumer == Retrieving
      modifies x, this`lastHeartbeat
      ensures Valid() && (if started then x.s.consumer == Polling else x.s.consumer.Stopped?)
      ensures started ==> retrieved.Some? && retrieved.value != []
      ensures x.s.consumer == Stopped(Finished) ==>
        x.s.sent == old(x.s.sent)
                    + (if retrieved.None? then [Failure("retrieval failed"), Done]
                       else [Retrieval([]), Refusal(NoChunksRetrieved, []), Done])
    {
      x.Take(if retrieved.Some? then Retrieved(retrieved.value) else RetrievalFailed("retrieval failed"));
      started := YieldAll();
      return started && retrieved.Some? && retrieved.value != [];
    }
  }

  /** Where the coroutine is once its frames are sent. */
  function AfterFrames(next: Next): Consumer {
    match next
    case ToRetrieve => Retrieving
    case ToFinish => Stopped(Finished)
    case _ => Polling
  }

  /** What a turn that goes on does: nothing, a heartbeat, or one more delta. */
  ghost predicate TurnedTo(before: string, sent: seq<Message>, after: string, now: seq<Message>) {
    || (after == before && (now == sent || now == sent + [Heartbeat]))
    || (exists text :: after == before + text && now == sent + [Delta(|after|)])
  }

  // ----- The thread -----

  lemma NotOpenedYet(w: World, s: State)
    requires Reachable(w, s) && s.producer.Opening?
    ensures !s.ended && !s.wasOpened
  {
    ReachableKeeps(w, s);
  }

  lemma ThreadIsDone(w: World, s: State)
    requires Reachable(w, s) && s.producer.Exited?
    ensures s.closes == if s.wasOpened then 1 else 0
    ensures !s.stop && s.producer == Exited(None) ==> s.ended
  {
    ReachableKeeps(w, s);
  }

  class WorkerThread {
    const x: Exchange

    constructor (x: Exchange)
      ensures this.x == x
    {
      this.x := x;
    }

    /** `worker`: queues what the stream yields, then its failure if any, then the end. */
    method Work(chunks: seq<string>, failure: Option<string>)
      requires x.Valid() && x.s.producer == Opening && x.s.pulled == []
      modifies x
      ensures x.Valid() && x.s.producer.Exited?
      ensures x.s.pulled <= chunks
      ensures x.s.closes == (if x.s.wasOpened then 1 else 0)
      ensures x.s.ended ==> x.s.pulled == chunks && failure.None?
      ensures !x.s.stop && x.s.producer == Exited(None) ==> x.s.ended
      ensures x.s.queue != [] && x.s.queue[|x.s.queue| - 1] == EndItem
    {
      x.LetCoroutineRun();
      NotOpenedYet(x.w, x.s);
      if * {
        x.Take(OpenFails("stream not opened"));
      } else {
        StreamAndClose(chunks, failure);
      }
      Report();
      ThreadIsDone(x.w, x.s);
    }

    /** The failure, if any, and the end. */
    method Report()
      requires x.Valid() && (x.s.producer.Reporting? || x.s.producer.Ending?)
      modifies x
      ensures x.Valid() && x.s.producer.Exited? && x.s.pulled == old(x.s.pulled) && x.s.ended == old(x.s.ended)
      ensures x.s.queue != [] && x.s.queue[|x.s.queue| - 1] == EndItem
    {
      x.LetCoroutineRun();
      if x.s.producer.Reporting? {
        x.Take(QueryStream.Report);
        x.LetCoroutineRun();
      }
      x.Take(PutEnd);
    }

    /** `stream_structured`: opens the stream, and closes it whatever happened. */
    method StreamAndClose(chunks: seq<string>, failure: Option<string>)
      requires x.Valid() && x.s.producer == Opening && x.s.pulled == [] && !x.s.ended
      modifies x
      ensures x.Valid() && (x.s.producer.Reporting? || x.s.producer.Ending?) && x.s.pulled <= chunks
      ensures x.s.ended ==> x.s.pulled == chunks && failure.None?
    {
      x.Take(Open);
      Stream(chunks, failure);
      x.LetCoroutineRun();
      x.Take(Close);
    }

    /** One turn of its loop: pulls a chunk, checks the flag, and has the chunk queued if
        the flag is not set. */
    method PullOne(chunk: string) returns (again: bool)
      requires x.Valid() && x.s.producer == Pulling && !x.s.ended
      modifies x
      ensures x.Valid() && x.s.pulled == old(x.s.pulled) + [chunk] && !x.s.ended
      ensures x.s.producer == if again then Pulling else Closing(None)
      ensures old(x.s.stop) ==> !again
      ensures !again ==> x.s.stop && x.s.queuedDeltas == old(x.s.queuedDeltas)
      ensures again ==> x.s.queuedDeltas == old(x.s.queuedDeltas) + if chunk == "" then 0 else 1
      ensures again && chunk != "" ==> x.s.queue != [] && x.s.queue[|x.s.queue| - 1] == DeltaItem(chunk)
    {
      x.Take(Pull(chunk));
      x.LetCoroutineRun();
      again := !x.s.stop;
      x.Take(CheckStop);
      if again {
        x.LetCoroutineRun();
        x.Take(Put);
      }
    }

    /** The loop, up to its `finally`. */
    method Stream(chunks: seq<string>, failure: Option<string>)
      requires x.Valid() && x.s.producer == Pulling && x.s.pulled == [] && !x.s.ended
      modifies x
      ensures x.Valid() && x.s.producer.Closing? && x.s.pulled <= chunks
      ensures x.s.ended ==> x.s.pulled == chunks && failure.None?
    {
      for i := 0 to |chunks|
        invariant x.Valid() && x.s.producer == Pulling && x.s.pulled == chunks[..i] && !x.s.ended
      {
        x.LetCoroutineRun();
        assert chunks[..i] + [chunks[i]] == chunks[..i + 1];
        var again := PullOne(chunks[i]);
        if !again {
          return;
        }
      }
      assert chunks[..|chunks|] == chunks;
      x.LetCoroutineRun();
      x.Take(if failure.Some? then PullFails(failure.value) else PullEnds);
    }
  }
}
