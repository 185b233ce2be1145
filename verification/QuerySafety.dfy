/** What every run of the query stream keeps: the order of the frames, the text that the
    answer is judged on, and the life of the upstream stream. */
module QuerySafety {
  import opened Basics
  import opened Fusion
  import opened EventStream
  import opened QueryStream

  // ----- The grammar of the frames -----

  predicate IsOpening(fs: seq<Message>, scored: seq<Scored>) {
    scored != [] && |fs| >= 2 && fs[..2] == [Padding, Retrieval(Searched(scored))]
  }

  /** The count of the last delta. */
  function LastCount(fs: seq<Message>): nat {
    if fs == [] then 0
    else
      var last := fs[|fs| - 1];
      if last.Delta? then last.chars else LastCount(fs[..|fs| - 1])
  }

  /** Every delta counts more characters than the one before. */
  predicate Growing(fs: seq<Message>) {
    fs == [] || (Growing(fs[..|fs| - 1]) && (fs[|fs| - 1].Delta? ==> LastCount(fs[..|fs| - 1]) < fs[|fs| - 1].chars))
  }

  predicate AllProgress(fs: seq<Message>) {
    forall i :: 0 <= i < |fs| ==> fs[i].Delta? || fs[i].Heartbeat?
  }

  /** Padding, what was retrieved, then deltas and heartbeats, so far for `chars` characters. */
  predicate IsBody(fs: seq<Message>, scored: seq<Scored>, chars: nat) {
    IsOpening(fs, scored) && AllProgress(fs[2..]) && Growing(fs) && LastCount(fs) == chars
  }

  /** The producer queued this failure. */
  predicate HasFailed(p: Producer, text: string) {
    p == Ending(Some(text)) || p == Exited(Some(text))
  }

  /** A body, then one last word, then `done`. The last word is the failure that the producer
      queued, or what the whole upstream text, after a normal end, leads to. */
  predicate IsConcluded(w: World, s: State, fs: seq<Message>) {
    && |fs| >= 4 && fs[|fs| - 1] == Done
    && IsBody(fs[..|fs| - 2], s.scored, |s.fullText|)
    && ((fs[|fs| - 2].Failure? && HasFailed(s.producer, fs[|fs| - 2].text))
        || (s.ended && s.fullText == Joined(s.pulled) && fs[|fs| - 2] == Conclusion(w, s.fullText, s.scored)))
  }

  /** What the response is when the coroutine ends by itself. */
  predicate IsWhole(w: World, s: State, fs: seq<Message>) {
    || (s.producer.NotStarted? && |fs| == 3 && fs[0] == Padding && fs[1].Failure? && fs[2] == Done)
    || (s.producer.NotStarted? && s.scored == []
        && fs == [Padding, Retrieval([]), Refusal(NoChunksRetrieved, []), Done])
    || IsConcluded(w, s, fs)
  }

  predicate IsProper(w: World, s: State, fs: seq<Message>) {
    fs == [Padding] || IsBody(fs, s.scored, LastCount(fs)) || IsWhole(w, s, fs)
  }

  ghost predicate IsCutShort(w: World, s: State, fs: seq<Message>) {
    exists rest :: IsProper(w, s, fs + rest)
  }

  /** The frames sent and those about to be. */
  function Frames(s: State): seq<Message> {
    if s.consumer.Sending? then s.sent + s.consumer.frames else s.sent
  }

  ghost predicate SentOk(w: World, s: State) {
    var fs := Frames(s);
    match s.consumer
    case Sending(_, ToRetrieve) => fs == [Padding]
    case Retrieving => fs == [Padding]
    case Sending(_, ToStart) => s.fullText == "" && IsBody(fs, s.scored, 0)
    case Sending(_, ToFinish) => IsWhole(w, s, fs)
    case Stopped(Finished) => IsWhole(w, s, fs)
    case Stopped(CutOff) => IsCutShort(w, s, fs)
    case _ => IsBody(fs, s.scored, |s.fullText|)
  }

  // ----- The queue and the text -----

  predicate AreDeltas(items: seq<Item>) {
    forall i :: 0 <= i < |items| ==> items[i].DeltaItem? && items[i].text != ""
  }

  function QueuedText(items: seq<Item>): string {
    if items == [] then ""
    else TextOfItem(items[0]) + QueuedText(items[1..])
  }

  function TextInHand(p: Producer): string {
    match p
    case Checking(text) => text
    case Holding(text) => text
    case _ => ""
  }

  /** What the producer has put after its deltas. */
  predicate QueueOk(items: seq<Item>, p: Producer) {
    var n := |items|;
    match p
    case NotStarted => false
    case Ending(Some(text)) => n > 0 && items[n - 1] == ErrorItem(text) && AreDeltas(items[..n - 1])
    case Exited(None) => n > 0 && items[n - 1] == EndItem && AreDeltas(items[..n - 1])
    case Exited(Some(text)) =>
      n > 1 && items[n - 1] == EndItem && items[n - 2] == ErrorItem(text) && AreDeltas(items[..n - 2])
    case _ => AreDeltas(items)
  }

  predicate InLoop(c: Consumer) {
    match c
    case Sending(_, next) => next == ToPoll || next == ToMark
    case Polling => true
    case Waiting => true
    case _ => false
  }

  predicate BeforeStart(c: Consumer) {
    match c
    case Sending(_, next) => next == ToRetrieve || next == ToStart
    case Retrieving => true
    case _ => false
  }

  /** Nothing that the upstream gave is lost or reordered between producer and consumer. */
  predicate TextOk(s: State) {
    && (BeforeStart(s.consumer) ==> s.producer.NotStarted?)
    && (s.producer.NotStarted? ==> s.queue == [] && s.pulled == [] && s.fullText == "" && !s.ended)
    && (s.stop ==> s.consumer == Stopped(Disconnected))
    && (InLoop(s.consumer) ==>
          && QueueOk(s.queue, s.producer)
          && s.fullText + (QueuedText(s.queue) + TextInHand(s.producer)) == Joined(s.pulled))
    && (s.consumer.Parsing? ==> s.producer == Exited(None) && s.fullText == Joined(s.pulled))
  }

  // ----- The upstream stream -----

  predicate PastTheEnd(p: Producer) {
    p == Closing(None) || p == Ending(None) || p == Exited(None)
  }

  predicate NeedsClose(p: Producer) {
    p.Pulling? || p.Checking? || p.Holding? || p.Closing?
  }

  /** The stream is closed once after its last pull, if it was opened; and a quiet ending
      is the end of the upstream or a stop. */
  predicate UpstreamOk(s: State) {
    && s.closes == (if s.wasOpened && !NeedsClose(s.producer) then 1 else 0)
    && (NeedsClose(s.producer) ==> s.wasOpened)
    && (s.producer.NotStarted? || s.producer.Opening? ==> !s.wasOpened)
    && (PastTheEnd(s.producer) ==> s.ended || s.stop)
    && (s.ended ==> PastTheEnd(s.producer))
  }

  // ----- Heartbeats -----

  /** Any two heartbeats are more than fifteen seconds apart, and each is so from the start. */
  predicate BeatsApart(fs: seq<Message>, times: seq<real>, start: real) {
    && |times| == |fs|
    && (forall i :: 0 <= i < |fs| && fs[i].Heartbeat? ==> times[i] - start > HEARTBEAT_SECONDS)
    && (forall i, j :: 0 <= i < j < |fs| && fs[i].Heartbeat? && fs[j].Heartbeat? ==>
          times[j] - times[i] > HEARTBEAT_SECONDS)
  }

  predicate BeatsUntil(fs: seq<Message>, times: seq<real>, end: real) {
    |times| == |fs| && forall i :: 0 <= i < |fs| && fs[i].Heartbeat? ==> times[i] <= end
  }

  predicate NoBeat(fs: seq<Message>) {
    forall i :: 0 <= i < |fs| ==> !fs[i].Heartbeat?
  }

  /** A heartbeat is pending only if the last one is long ago, and then it is all there is. */
  predicate PendingOk(s: State) {
    s.consumer.Sending? ==>
      var c := s.consumer;
      if c.next == ToMark then
        c.frames == [] || (c.frames == [Heartbeat] && s.now - s.lastHeartbeat > HEARTBEAT_SECONDS)
      else NoBeat(c.frames)
  }

  predicate BeatsOk(s: State) {
    && s.startedAt <= s.lastHeartbeat <= s.now
    && BeatsApart(s.sent, s.sentAt, s.startedAt)
    && BeatsUntil(s.sent, s.sentAt, s.now)
    && (InLoop(s.consumer) && s.consumer != Sending([], ToMark) ==> BeatsUntil(s.sent, s.sentAt, s.lastHeartbeat))
    && (BeforeStart(s.consumer) ==> NoBeat(s.sent))
    && PendingOk(s)
  }

  // ----- Every step keeps them -----

  lemma YieldMovesOneFrame(w: World, s: State)
    requires Enabled(s, Yield)
    ensures Frames(ApplyConsumer(w, s, Yield)) == Frames(s)
  {
    var f := s.consumer.frames;
    assert s.sent + [f[0]] + f[1..] == s.sent + f;
  }

  lemma ProducerKeepsUpstream(s: State, step: Step)
    requires IsProducerStep(step) && Enabled(s, step) && UpstreamOk(s)
    ensures UpstreamOk(ApplyProducer(s, step))
  {}

  lemma ConsumerKeepsUpstream(w: World, s: State, step: Step)
    requires !IsProducerStep(step) && Enabled(s, step) && UpstreamOk(s) && TextOk(s)
    ensures UpstreamOk(ApplyConsumer(w, s, step))
  {}

  function TextOfItem(item: Item): string {
    if item.DeltaItem? then item.text else ""
  }

  lemma OneItem(item: Item)
    ensures QueuedText([item]) == TextOfItem(item)
  {
    assert [item][1..] == [];
  }

  lemma {:induction false} QueuedTextAppend(items: seq<Item>, item: Item)
    ensures QueuedText(items + [item]) == QueuedText(items) + TextOfItem(item)
  {
    if items == [] {
      assert items + [item] == [item];
      OneItem(item);
    } else {
      QueuedTextAppend(items[1..], item);
      FirstOfMore(items, item);
      HandOver(TextOfItem(items[0]), QueuedText(items[1..]), TextOfItem(item));
    }
  }

  lemma FirstOfMore(items: seq<Item>, item: Item)
    requires items != []
    ensures QueuedText(items + [item]) == TextOfItem(items[0]) + QueuedText(items[1..] + [item])
  {
    assert (items + [item])[1..] == items[1..] + [item];
    assert (items + [item])[0] == items[0];
  }

  lemma {:induction false} JoinedAppend(texts: seq<string>, text: string)
    ensures Joined(texts + [text]) == Joined(texts) + text
  {
    if texts == [] {
      assert texts + [text] == [text];
    } else {
      JoinedAppend(texts[1..], text);
      assert (texts + [text])[1..] == texts[1..] + [text];
    }
  }

  lemma DeltasAfterFirst(items: seq<Item>, k: nat)
    requires 0 < k <= |items| && AreDeltas(items[..k])
    ensures items[0].DeltaItem? && items[0].text != "" && AreDeltas(items[1..][..k - 1])
  {
    assert items[..k][0] == items[0];
    assert items[1..][..k - 1] == items[..k][1..];
  }

  /** How many deltas are in the queue. */
  function DeltaCount(items: seq<Item>, p: Producer): nat
    requires QueueOk(items, p)
  {
    match p
    case Ending(Some(_)) => |items| - 1
    case Exited(None) => |items| - 1
    case Exited(Some(_)) => |items| - 2
    case _ => |items|
  }

  lemma DeltasAreFirst(items: seq<Item>, p: Producer)
    requires QueueOk(items, p)
    ensures AreDeltas(items[..DeltaCount(items, p)])
  {
    assert items[..|items|] == items;
  }

  /** What the consumer takes next, and what that says about the producer. */
  lemma TakeFirst(items: seq<Item>, p: Producer)
    requires QueueOk(items, p) && items != []
    ensures items[0].DeltaItem? ==> QueueOk(items[1..], p) && items[0].text != ""
    ensures items[0].ErrorItem? ==> HasFailed(p, items[0].text)
    ensures items[0].EndItem? ==> items[1..] == [] && p == Exited(None)
    ensures QueuedText(items) == TextOfItem(items[0]) + QueuedText(items[1..])
  {
    var k := DeltaCount(items, p);
    if k > 0 {
      DeltasAreFirst(items, p);
      DeltasAfterFirst(items, k);
      StillOk(items, p);
    }
  }

  lemma StillOk(items: seq<Item>, p: Producer)
    requires QueueOk(items, p) && DeltaCount(items, p) > 0
    requires AreDeltas(items[1..][..DeltaCount(items, p) - 1])
    ensures QueueOk(items[1..], p)
  {
    var more := items[1..];
    assert more[..|more|] == more;
  }

  lemma MoveText(full: string, first: string, queued: string, hand: string)
    ensures full + ((first + queued) + hand) == (full + first) + (queued + hand)
  {}

  lemma GetKeepsText(s: State)
    requires s.consumer.Waiting? && s.queue != [] && TextOk(s)
    ensures TextOk(Receive(s.(queue := s.queue[1..]), s.queue[0]))
  {
    TakeFirst(s.queue, s.producer);
    var item, more := s.queue[0], s.queue[1..];
    if item.DeltaItem? {
      MoveText(s.fullText, item.text, QueuedText(more), TextInHand(s.producer));
    } else if item.EndItem? {
      assert s.fullText + ("" + "" + "") == s.fullText;
    }
  }

  lemma AddLast(items: seq<Item>, item: Item, p: Producer, q: Producer)
    requires QueueOk(items, p)
    requires || (p.Holding? && q.Pulling? && item == DeltaItem(p.text) && p.text != "")
             || (p.Reporting? && q == Ending(Some(p.text)) && item == ErrorItem(p.text))
             || (p.Ending? && q == Exited(p.failure) && item == EndItem)
    ensures QueueOk(items + [item], q)
    ensures QueuedText(items + [item]) == QueuedText(items) + TextOfItem(item)
  {
    var all := items + [item];
    assert all[..|all| - 1] == items;
    assert |all| > 1 ==> all[..|all| - 2] == items[..|items| - 1];
    QueuedTextAppend(items, item);
  }

  lemma HandOver(full: string, queued: string, text: string)
    ensures full + ((queued + text) + "") == full + (queued + text)
    ensures full + (queued + "") + text == full + (queued + text)
    ensures full + queued + text == full + (queued + text)
    ensures full + ((queued + "") + "") == full + (queued + "")
  {}

  lemma ProducerKeepsConsumer(w: World, s: State, step: Step)
    requires IsProducerStep(step) && Enabled(s, step)
    ensures var t := ApplyProducer(s, step);
            && t.consumer == s.consumer && t.sent == s.sent && t.scored == s.scored && t.fullText == s.fullText
            && t.sentAt == s.sentAt && t.now == s.now
            && t.startedAt == s.startedAt && t.lastHeartbeat == s.lastHeartbeat && t.stop == s.stop
  {}

  lemma PullKeepsText(w: World, s: State, text: string)
    requires Enabled(s, Pull(text)) && TextOk(s) && UpstreamOk(s)
    ensures TextOk(ApplyProducer(s, Pull(text)))
  {
    JoinedAppend(s.pulled, text);
    HandOver(s.fullText, QueuedText(s.queue), text);
  }

  lemma PutKeepsText(w: World, s: State)
    requires Enabled(s, Put) && TextOk(s)
    ensures TextOk(ApplyProducer(s, Put))
  {
    var text := s.producer.text;
    if InLoop(s.consumer) {
      HandOver(s.fullText, QueuedText(s.queue), text);
      if text != "" {
        AddLast(s.queue, DeltaItem(text), s.producer, Pulling);
      }
    }
  }

  lemma ReportKeepsText(w: World, s: State)
    requires Enabled(s, Report) && TextOk(s)
    ensures TextOk(ApplyProducer(s, Report))
  {
    if InLoop(s.consumer) {
      AddLast(s.queue, ErrorItem(s.producer.text), s.producer, Ending(Some(s.producer.text)));
    }
  }

  lemma PutEndKeepsText(w: World, s: State)
    requires Enabled(s, PutEnd) && TextOk(s)
    ensures TextOk(ApplyProducer(s, PutEnd))
  {
    if InLoop(s.consumer) {
      AddLast(s.queue, EndItem, s.producer, Exited(s.producer.failure));
    }
  }

  lemma QuietStepKeepsText(w: World, s: State, step: Step)
    requires step.Open? || step.OpenFails? || step.PullEnds? || step.PullFails? || step.CheckStop? || step.Close?
    requires Enabled(s, step) && TextOk(s)
    ensures TextOk(ApplyProducer(s, step))
  {
    var t := ApplyProducer(s, step);
    assert t.queue == s.queue && t.fullText == s.fullText && t.pulled == s.pulled && t.consumer == s.consumer;
    assert !s.stop ==> TextInHand(t.producer) == TextInHand(s.producer);
  }

  lemma ProducerKeepsText(w: World, s: State, step: Step)
    requires IsProducerStep(step) && Enabled(s, step) && TextOk(s) && UpstreamOk(s)
    ensures TextOk(ApplyProducer(s, step))
  {
    match step {
      case Pull(text) => PullKeepsText(w, s, text);
      case Put => PutKeepsText(w, s);
      case Report => ReportKeepsText(w, s);
      case PutEnd => PutEndKeepsText(w, s);
      case _ => QuietStepKeepsText(w, s, step);
    }
  }

  lemma ResumeKeepsText(w: World, s: State)
    requires Enabled(s, Resume) && TextOk(s)
    ensures TextOk(ApplyConsumer(w, s, Resume))
  {
    if s.consumer.next == ToStart {
      assert "" + ("" + "") == "";
    }
  }

  lemma ConsumerKeepsText(w: World, s: State, step: Step)
    requires !IsProducerStep(step) && Enabled(s, step) && TextOk(s)
    ensures TextOk(ApplyConsumer(w, s, step))
  {
    match step {
      case Get => GetKeepsText(s);
      case Resume => ResumeKeepsText(w, s);
      case _ =>
    }
  }

  // The frames

  lemma BodyGrows(fs: seq<Message>, scored: seq<Scored>, chars: nat, m: Message)
    requires IsBody(fs, scored, chars) && (m.Heartbeat? || (m.Delta? && m.chars > chars))
    ensures IsBody(fs + [m], scored, if m.Delta? then m.chars else chars)
  {
    var gs := fs + [m];
    assert gs[..|gs| - 1] == fs && gs[..2] == fs[..2] && gs[2..] == fs[2..] + [m];
  }

  lemma BodyStarts(scored: seq<Scored>)
    requires scored != []
    ensures IsBody([Padding, Retrieval(Searched(scored))], scored, 0)
  {
    var fs := [Padding, Retrieval(Searched(scored))];
    assert fs[..1] == [Padding] && fs[..1][..0] == [];
    assert LastCount(fs[..1]) == 0 && Growing(fs[..1]);
  }

  /** The last word on a body concludes it. */
  lemma BodyConcludes(w: World, s: State, fs: seq<Message>, m: Message)
    requires IsBody(fs, s.scored, |s.fullText|)
    requires (m.Failure? && HasFailed(s.producer, m.text))
             || (s.ended && s.fullText == Joined(s.pulled) && m == Conclusion(w, s.fullText, s.scored))
    ensures IsWhole(w, s, fs + [m, Done])
  {
    var gs := fs + [m, Done];
    assert gs[..|gs| - 2] == fs && gs[|gs| - 2] == m;
  }

  /** Once the last word is said, the producer changes nothing that it rests on. */
  lemma ProducerKeepsWhole(w: World, s: State, step: Step, fs: seq<Message>)
    requires IsProducerStep(step) && Enabled(s, step) && UpstreamOk(s) && IsWhole(w, s, fs)
    ensures IsWhole(w, ApplyProducer(s, step), fs)
  {
    var t := ApplyProducer(s, step);
    assert forall text :: HasFailed(s.producer, text) ==> HasFailed(t.producer, text);
    assert s.ended ==> t.ended && t.pulled == s.pulled;
  }

  lemma SameFrames(w: World, s: State, t: State)
    requires t.consumer == s.consumer && t.sent == s.sent && t.scored == s.scored && t.fullText == s.fullText
    requires forall fs :: IsWhole(w, s, fs) ==> IsWhole(w, t, fs)
    requires SentOk(w, s)
    ensures SentOk(w, t)
  {
    if s.consumer == Stopped(CutOff) {
      var rest :| IsProper(w, s, s.sent + rest);
      assert IsProper(w, t, t.sent + rest);
    }
  }

  lemma ProducerKeepsFrames(w: World, s: State, step: Step)
    requires IsProducerStep(step) && Enabled(s, step) && SentOk(w, s) && UpstreamOk(s)
    ensures SentOk(w, ApplyProducer(s, step))
  {
    var t := ApplyProducer(s, step);
    forall fs | IsWhole(w, s, fs) ensures IsWhole(w, t, fs) {
      ProducerKeepsWhole(w, s, step, fs);
    }
    SameFrames(w, s, t);
  }

  lemma GetKeepsFrames(w: World, s: State)
    requires Enabled(s, Get) && SentOk(w, s) && TextOk(s)
    ensures SentOk(w, ApplyConsumer(w, s, Get))
  {
    var item := s.queue[0];
    var t := ApplyConsumer(w, s, Get);
    TakeFirst(s.queue, s.producer);
    match item {
      case DeltaItem(text) => BodyGrows(s.sent, s.scored, |s.fullText|, Delta(|t.fullText|));
      case ErrorItem(text) => BodyConcludes(w, t, s.sent, Failure(text));
      case EndItem =>
    }
  }

  lemma CutKeepsFrames(w: World, s: State)
    requires Enabled(s, Cut) && SentOk(w, s)
    ensures SentOk(w, ApplyConsumer(w, s, Cut))
  {
    var t := ApplyConsumer(w, s, Cut);
    var rest := if s.consumer.Sending? then s.consumer.frames else [];
    assert t.sent + rest == Frames(s);
    assert IsProper(w, t, t.sent + rest);
  }

  lemma RetrievedKeepsFrames(w: World, s: State, scored: seq<Scored>)
    requires Enabled(s, Retrieved(scored)) && SentOk(w, s) && TextOk(s)
    ensures SentOk(w, ApplyConsumer(w, s, Retrieved(scored)))
  {
    if scored != [] {
      BodyStarts(scored);
      assert [Padding] + [Retrieval(Searched(scored))] == [Padding, Retrieval(Searched(scored))];
    }
  }

  lemma ResumeKeepsFrames(w: World, s: State)
    requires Enabled(s, Resume) && SentOk(w, s)
    ensures SentOk(w, ApplyConsumer(w, s, Resume))
  {
    assert s.sent + [] == s.sent;
  }

  lemma YieldKeepsFrames(w: World, s: State)
    requires Enabled(s, Yield) && SentOk(w, s)
    ensures SentOk(w, ApplyConsumer(w, s, Yield))
  {
    YieldMovesOneFrame(w, s);
  }

  lemma TimeOutKeepsFrames(w: World, s: State)
    requires Enabled(s, TimeOut) && SentOk(w, s)
    ensures SentOk(w, ApplyConsumer(w, s, TimeOut))
  {
    BodyGrows(s.sent, s.scored, |s.fullText|, Heartbeat);
  }

  lemma ConcludeKeepsFrames(w: World, s: State)
    requires Enabled(s, Conclude) && SentOk(w, s) && TextOk(s) && UpstreamOk(s)
    ensures SentOk(w, ApplyConsumer(w, s, Conclude))
  {
    BodyConcludes(w, s, s.sent, Conclusion(w, s.fullText, s.scored));
  }

  lemma ConsumerKeepsFrames(w: World, s: State, step: Step)
    requires !IsProducerStep(step) && Enabled(s, step) && SentOk(w, s) && TextOk(s) && UpstreamOk(s)
    ensures SentOk(w, ApplyConsumer(w, s, step))
  {
    match step {
      case Yield => YieldKeepsFrames(w, s);
      case Resume => ResumeKeepsFrames(w, s);
      case Retrieved(scored) => RetrievedKeepsFrames(w, s, scored);
      case TimeOut => TimeOutKeepsFrames(w, s);
      case Get => GetKeepsFrames(w, s);
      case Conclude => ConcludeKeepsFrames(w, s);
      case Cut => CutKeepsFrames(w, s);
      case _ =>
    }
  }

  // The heartbeats

  lemma SendOneMore(fs: seq<Message>, times: seq<real>, start: real, m: Message, now: real, last: real)
    requires BeatsApart(fs, times, start) && BeatsUntil(fs, times, last)
    requires m.Heartbeat? ==> now - last > HEARTBEAT_SECONDS && start <= last
    ensures BeatsApart(fs + [m], times + [now], start)
  {}

  lemma SendUntil(fs: seq<Message>, times: seq<real>, m: Message, now: real, end: real)
    requires BeatsUntil(fs, times, end) && (m.Heartbeat? ==> now <= end)
    ensures BeatsUntil(fs + [m], times + [now], end)
  {}

  lemma YieldKeepsBeats(w: World, s: State)
    requires Enabled(s, Yield) && BeatsOk(s)
    ensures BeatsOk(ApplyConsumer(w, s, Yield))
  {
    var m := s.consumer.frames[0];
    SendOneMore(s.sent, s.sentAt, s.startedAt, m, s.now, if m.Heartbeat? then s.lastHeartbeat else s.now);
    SendUntil(s.sent, s.sentAt, m, s.now, s.now);
    if !m.Heartbeat? && InLoop(s.consumer) {
      SendUntil(s.sent, s.sentAt, m, s.now, s.lastHeartbeat);
    }
  }

  lemma ProducerKeepsBeats(w: World, s: State, step: Step)
    requires IsProducerStep(step) && Enabled(s, step) && BeatsOk(s)
    ensures BeatsOk(ApplyProducer(s, step))
  {
    ProducerKeepsConsumer(w, s, step);
  }

  lemma TickKeepsBeats(s: State, time: real)
    requires s.now <= time && BeatsOk(s)
    ensures BeatsOk(s.(now := time))
  {}

  lemma ContinueKeepsBeats(s: State, next: Next)
    requires s.consumer == Sending([], next) && BeatsOk(s)
    ensures BeatsOk(Continue(s, next))
  {}

  predicate SameTimes(s: State, t: State) {
    && t.sent == s.sent && t.sentAt == s.sentAt
    && t.startedAt == s.startedAt && t.lastHeartbeat == s.lastHeartbeat && t.now == s.now
  }

  /** Other steps of the consumer move no time and send nothing. */
  lemma StillKeepsBeats(s: State, t: State)
    requires BeatsOk(s) && Stilled(s, t)
    ensures BeatsOk(t)
  {}

  predicate MovesTime(step: Step) { step.Tick? || step.Yield? || step.Resume? }

  predicate Stilled(s: State, t: State) {
    && SameTimes(s, t) && PendingOk(t)
    && (BeforeStart(t.consumer) ==> BeforeStart(s.consumer))
    && (InLoop(t.consumer) ==> InLoop(s.consumer) && s.consumer != Sending([], ToMark))
  }

  lemma GetIsStill(s: State)
    requires s.consumer.Waiting? && s.queue != []
    ensures Stilled(s, Receive(s.(queue := s.queue[1..]), s.queue[0]))
  {}

  lemma EndOfWaitIsStill(w: World, s: State, step: Step)
    requires (step.TimeOut? || step.Conclude?) && Enabled(s, step)
    ensures Stilled(s, ApplyConsumer(w, s, step))
  {}

  lemma QuietStepIsStill(w: World, s: State, step: Step)
    requires !IsProducerStep(step) && !MovesTime(step) && Enabled(s, step)
    ensures Stilled(s, ApplyConsumer(w, s, step))
  {
    match step {
      case Get => GetIsStill(s);
      case TimeOut => EndOfWaitIsStill(w, s, step);
      case Conclude => EndOfWaitIsStill(w, s, step);
      case _ =>
    }
  }

  lemma ConsumerKeepsBeats(w: World, s: State, step: Step)
    requires !IsProducerStep(step) && Enabled(s, step) && BeatsOk(s)
    ensures BeatsOk(ApplyConsumer(w, s, step))
  {
    if !MovesTime(step) {
      QuietStepIsStill(w, s, step);
      StillKeepsBeats(s, ApplyConsumer(w, s, step));
    } else if step.Tick? {
      TickKeepsBeats(s, step.time);
    } else if step.Yield? {
      YieldKeepsBeats(w, s);
    } else {
      ContinueKeepsBeats(s, s.consumer.next);
    }
  }

  // All together

  ghost predicate Inv(w: World, s: State) {
    SentOk(w, s) && TextOk(s) && UpstreamOk(s) && BeatsOk(s)
  }

  lemma KeepInv(w: World, s: State, step: Step)
    requires Enabled(s, step) && Inv(w, s)
    ensures Inv(w, Apply(w, s, step))
  {
    if IsProducerStep(step) {
      ProducerKeepsUpstream(s, step);
      ProducerKeepsBeats(w, s, step);
      ProducerKeepsText(w, s, step);
      ProducerKeepsFrames(w, s, step);
    } else {
      ConsumerKeepsUpstream(w, s, step);
      ConsumerKeepsBeats(w, s, step);
      ConsumerKeepsText(w, s, step);
      ConsumerKeepsFrames(w, s, step);
    }
  }

  lemma {:induction false} KeepOverRun(w: World, s: State, steps: seq<Step>, t: State)
    requires Inv(w, s) && Leads(w, s, steps, t)
    ensures Inv(w, t)
    decreases |steps|
  {
    if steps == [] {
    } else {
      KeepInv(w, s, steps[0]);
      KeepOverRun(w, Apply(w, s, steps[0]), steps[1..], t);
    }
  }

  lemma ReachableKeeps(w: World, s: State)
    requires Reachable(w, s)
    ensures Inv(w, s)
  {
    var now, steps :| Leads(w, Initial(now), steps, s);
    KeepOverRun(w, Initial(now), steps, s);
  }
}
