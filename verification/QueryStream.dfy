/** `POST /query` (api/routes_query.py:79-207) and the upstream stream that it reads
    (eval/gemini_client.py:78-115), as one step system: the consumer coroutine, the producer
    thread and the queue between them. The steps of the two interleave freely, and the
    framework may drop the coroutine at any of its suspension points. */
module QueryStream {
  import opened Basics
  import opened Fusion
  import opened Gate
  import opened Replay

  // ----- Frames and queue items -----

  datatype Page = Page(chunk: int, page: int)

  datatype Why = NoChunksRetrieved | GateRefused(reason: Reason)

  /** What the consumer yields, before it is printed. */
  datatype Message =
    | Padding
    | Retrieval(searched: seq<Page>)
    | Delta(chars: nat)
    | Heartbeat
    | Failure(text: string)
    | Refusal(why: Why, searched: seq<Page>)
    | Answered(answer: Answer, pages: seq<Option<int>>)
    | Done

  datatype Item = DeltaItem(text: string) | ErrorItem(text: string) | EndItem

  const HEARTBEAT_SECONDS := 15.0
  const MALFORMED := "model returned malformed output"
  const LIVE_LAYERS: set<Layer> := {L2, L3}

  // ----- The state -----

  /** What the coroutine does once its pending frames are sent. */
  datatype Next = ToRetrieve | ToStart | ToPoll | ToMark | ToFinish

  datatype Outcome = Finished | Disconnected | CutOff

  datatype Consumer =
    | Sending(frames: seq<Message>, next: Next)
    | Retrieving
    | Polling
    | Waiting
    | Parsing
    | Stopped(how: Outcome)

  datatype Producer =
    | NotStarted
    | Opening
    | Pulling
    | Checking(text: string)
    | Holding(text: string)
    | Closing(failure: Option<string>)
    | Reporting(text: string)
    | Ending(failure: Option<string>)
    | Exited(failure: Option<string>)

  /** `sentAt` is when each frame was sent, `pulled` every chunk text the upstream gave,
      `ended` that it gave all of them, `closes` how often its stream was closed,
      `queuedDeltas` how many were put. */
  datatype State = State(
    consumer: Consumer, sent: seq<Message>, sentAt: seq<real>, scored: seq<Scored>, fullText: string,
    now: real, startedAt: real, lastHeartbeat: real,
    queue: seq<Item>, stop: bool,
    producer: Producer, pulled: seq<string>, ended: bool, wasOpened: bool, closes: nat, queuedDeltas: nat)

  /** The JSON reader and validator of answers, and the reranker: pure functions. */
  datatype World = World(parse: string -> Option<Answer>, rerank: Reranker)

  function Initial(now: real): State {
    State(Sending([Padding], ToRetrieve), [], [], [], "", now, now, now, [], false,
          NotStarted, [], false, false, 0, 0)
  }

  // ----- What is sent -----

  function Searched(scored: seq<Scored>): seq<Page> {
    seq(|scored|, i requires 0 <= i < |scored| => Page(scored[i].chunk.id, scored[i].chunk.page))
  }

  /** `chunks_by_id[c.chunk_id].page_num if c.chunk_id in chunks_by_id else None` */
  function CitedPage(c: Citation, chunks: map<int, Chunk>): Option<int> {
    if c.chunk in chunks then Some(chunks[c.chunk].page) else None
  }

  function CitedPages(answer: Answer, scored: seq<Scored>): seq<Option<int>> {
    var chunks := ById(Chunks(scored));
    seq(|answer.citations|, i requires 0 <= i < |answer.citations| => CitedPage(answer.citations[i], chunks))
  }

  function LiveGate(w: World, answer: Answer, scored: seq<Scored>): Verdict {
    ApplyGate(answer, LiveContext(scored), w.rerank, Settings(LIVE_LAYERS, 0.0, Some(LiveMargin(scored)), 0.0))
  }

  /** The last word on a whole upstream text. */
  function Conclusion(w: World, text: string, scored: seq<Scored>): (m: Message)
    ensures m.Failure? || m.Refusal? || m.Answered?
  {
    var parsed := w.parse(text);
    if parsed.None? then Failure(MALFORMED)
    else
      var verdict := LiveGate(w, parsed.value, scored);
      if verdict.Refused? then Refusal(GateRefused(verdict.reason), Searched(scored))
      else Answered(parsed.value, CitedPages(parsed.value, scored))
  }

  // ----- Steps -----

  datatype Step =
    | Tick(time: real)
    // the consumer
    | Yield
    | Resume
    | Retrieved(scored: seq<Scored>)
    | RetrievalFailed(text: string)
    | SeeDisconnect
    | SeeConnected
    | TimeOut
    | Get
    | Conclude
    | Cut
    // the producer
    | Open
    | OpenFails(text: string)
    | Pull(text: string)
    | PullEnds
    | PullFails(text: string)
    | CheckStop
    | Put
    | Close
    | Report
    | PutEnd

  predicate Enabled(s: State, step: Step) {
    match step
    case Tick(time) => s.now <= time
    case Yield => s.consumer.Sending? && s.consumer.frames != []
    case Resume => s.consumer.Sending? && s.consumer.frames == []
    case Retrieved(_) => s.consumer.Retrieving?
    case RetrievalFailed(_) => s.consumer.Retrieving?
    case SeeDisconnect => s.consumer.Polling?
    case SeeConnected => s.consumer.Polling?
    case TimeOut => s.consumer.Waiting?
    case Get => s.consumer.Waiting? && s.queue != []
    case Conclude => s.consumer.Parsing?
    case Cut => !s.consumer.Stopped?
    case Open => s.producer.Opening?
    case OpenFails(_) => s.producer.Opening?
    case Pull(_) => s.producer.Pulling?
    case PullEnds => s.producer.Pulling?
    case PullFails(_) => s.producer.Pulling?
    case CheckStop => s.producer.Checking?
    case Put => s.producer.Holding?
    case Close => s.producer.Closing?
    case Report => s.producer.Reporting?
    case PutEnd => s.producer.Ending?
  }

  function Send(s: State, frames: seq<Message>, next: Next): State {
    s.(consumer := Sending(frames, next))
  }

  /** The consumer goes on after its frames. */
  function Continue(s: State, next: Next): State {
    match next
    case ToRetrieve => s.(consumer := Retrieving)
    case ToStart => s.(consumer := Polling, producer := Opening, startedAt := s.now, lastHeartbeat := s.now)
    case ToPoll => s.(consumer := Polling)
    case ToMark => s.(consumer := Polling, lastHeartbeat := s.now)
    case ToFinish => s.(consumer := Stopped(Finished))
  }

  function Receive(s: State, item: Item): State {
    match item
    case DeltaItem(text) =>
      var full := s.fullText + text;
      Send(s.(fullText := full), [Delta(|full|)], ToPoll)
    case ErrorItem(text) => Send(s, [Failure(text), Done], ToFinish)
    case EndItem => s.(consumer := Parsing)
  }

  predicate IsProducerStep(step: Step) {
    step.Open? || step.OpenFails? || step.Pull? || step.PullEnds? || step.PullFails? || step.CheckStop?
    || step.Put? || step.Close? || step.Report? || step.PutEnd?
  }

  function ApplyConsumer(w: World, s: State, step: Step): State
    requires Enabled(s, step) && !IsProducerStep(step)
  {
    match step
    case Tick(time) => s.(now := time)
    case Yield =>
      s.(sent := s.sent + [s.consumer.frames[0]], sentAt := s.sentAt + [s.now],
         consumer := s.consumer.(frames := s.consumer.frames[1..]))
    case Resume => Continue(s, s.consumer.next)
    case Retrieved(scored) =>
      var t := s.(scored := scored);
      if scored == [] then Send(t, [Retrieval([]), Refusal(NoChunksRetrieved, []), Done], ToFinish)
      else Send(t, [Retrieval(Searched(scored))], ToStart)
    case RetrievalFailed(text) => Send(s, [Failure(text), Done], ToFinish)
    case SeeDisconnect => s.(consumer := Stopped(Disconnected), stop := true)
    case SeeConnected => s.(consumer := Waiting)
    case TimeOut =>
      if s.now - s.lastHeartbeat > HEARTBEAT_SECONDS then Send(s, [Heartbeat], ToMark) else s.(consumer := Polling)
    case Get => Receive(s.(queue := s.queue[1..]), s.queue[0])
    case Conclude => Send(s, [Conclusion(w, s.fullText, s.scored), Done], ToFinish)
    case Cut => s.(consumer := Stopped(CutOff))
  }

  function ApplyProducer(s: State, step: Step): State
    requires Enabled(s, step) && IsProducerStep(step)
  {
    match step
    case Open => s.(producer := Pulling, wasOpened := true)
    case OpenFails(text) => s.(producer := Reporting(text))
    case Pull(text) => s.(producer := Checking(text), pulled := s.pulled + [text])
    case PullEnds => s.(producer := Closing(None), ended := true)
    case PullFails(text) => s.(producer := Closing(Some(text)))
    case CheckStop => s.(producer := if s.stop then Closing(None) else Holding(s.producer.text))
    case Put =>
      if s.producer.text == "" then s.(producer := Pulling)
      else s.(producer := Pulling, queue := s.queue + [DeltaItem(s.producer.text)], queuedDeltas := s.queuedDeltas + 1)
    case Close =>
      var t := s.(closes := s.closes + 1);
      if s.producer.failure.None? then t.(producer := Ending(None))
      else t.(producer := Reporting(s.producer.failure.value))
    case Report => s.(producer := Ending(Some(s.producer.text)), queue := s.queue + [ErrorItem(s.producer.text)])
    case PutEnd => s.(producer := Exited(s.producer.failure), queue := s.queue + [EndItem])
  }

  function Apply(w: World, s: State, step: Step): State
    requires Enabled(s, step)
  {
    if IsProducerStep(step) then ApplyProducer(s, step) else ApplyConsumer(w, s, step)
  }

  /** The steps lead from s to t. */
  predicate Leads(w: World, s: State, steps: seq<Step>, t: State)
    decreases |steps|
  {
    if steps == [] then s == t
    else Enabled(s, steps[0]) && Leads(w, Apply(w, s, steps[0]), steps[1..], t)
  }

  ghost predicate Reachable(w: World, s: State) {
    exists now, steps :: Leads(w, Initial(now), steps, s)
  }
}
