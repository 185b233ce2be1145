/** A response whose client stays comes to its end: once the thread is done, the coroutine's
    own steps run out, and what they come to is `done`. */
module QueryProgress {
  import opened QueryStream
  import opened QuerySafety
  import QueryGuarantees

  /** What the thread leaves behind: while the loop runs, the end of the stream is in the
      queue, and it is last. */
  lemma EndIsQueued(w: World, s: State)
    requires Reachable(w, s) && InLoop(s.consumer) && s.producer.Exited?
    ensures s.queue != [] && s.queue[|s.queue| - 1] == EndItem
    ensures forall i :: 0 <= i < |s.queue| - 1 ==> s.queue[i] != EndItem
  {
    ReachableKeeps(w, s);
    EndIsLast(s.queue, s.producer);
  }

  lemma EndIsLast(items: seq<Item>, p: Producer)
    requires QueueOk(items, p) && p.Exited?
    ensures items != [] && items[|items| - 1] == EndItem
    ensures forall i :: 0 <= i < |items| - 1 ==> items[i] != EndItem
  {
    var k := DeltaCount(items, p);
    DeltasAreFirst(items, p);
    forall i | 0 <= i < |items| - 1 ensures items[i] != EndItem {
      if i < k {
        assert items[i] == items[..k][i];
      }
    }
  }

  /** What the coroutine does while its client stays. With an item in the queue, and there is
      one (EndIsQueued), `get` returns at once: no wait times out. */
  predicate IsOwnStep(step: Step) {
    step.Yield? || step.Resume? || step.SeeConnected? || step.Get? || step.Conclude?
  }

  /** The thread is done, and the coroutine was not stopped from outside. */
  predicate Served(s: State) {
    s.producer.Exited? && (s.consumer.Stopped? ==> s.consumer.how.Finished?)
  }

  /** How many own steps there are at most: four for each item, and a few at the end. */
  function Ahead(s: State): nat {
    match s.consumer
    case Stopped(_) => 0
    case Sending(frames, ToFinish) => |frames| + 1
    case Parsing => 4
    case Waiting => 4 * |s.queue| + 1
    case Polling => 4 * |s.queue| + 2
    case Sending(frames, _) => 4 * |s.queue| + 3 + |frames|
    case Retrieving => 0
  }

  lemma GetIsNearer(s: State)
    requires s.consumer.Waiting? && s.queue != []
    ensures Ahead(Receive(s.(queue := s.queue[1..]), s.queue[0])) < Ahead(s)
  {}

  /** Each own step is one less to go. */
  lemma OwnStepIsNearer(w: World, s: State, step: Step)
    requires Served(s) && TextOk(s) && IsOwnStep(step) && Enabled(s, step)
    ensures var t := Apply(w, s, step);
            Served(t) && Ahead(t) < Ahead(s)
  {
    if step.Get? {
      GetIsNearer(s);
    }
  }

  /** The own step there is, until the response is finished. */
  function OwnStep(s: State): Step
    requires !s.consumer.Stopped? && !s.consumer.Retrieving?
  {
    match s.consumer
    case Sending(frames, _) => if frames == [] then Resume else Yield
    case Polling => SeeConnected
    case Waiting => Get
    case Parsing => Conclude
  }

  lemma OwnStepIsEnabled(s: State)
    requires TextOk(s) && Served(s) && !s.consumer.Stopped?
    ensures !s.consumer.Retrieving? && IsOwnStep(OwnStep(s)) && Enabled(s, OwnStep(s))
  {}

  function OwnSteps(steps: seq<Step>): nat {
    if steps == [] then 0 else (if IsOwnStep(steps[0]) then 1 else 0) + OwnSteps(steps[1..])
  }

  ghost predicate ClientStays(steps: seq<Step>) {
    forall i :: 0 <= i < |steps| ==> IsOwnStep(steps[i]) || steps[i].Tick?
  }

  lemma {:induction false} OwnStepsRunOut(w: World, s: State, steps: seq<Step>, t: State)
    requires Served(s) && Inv(w, s) && Leads(w, s, steps, t) && ClientStays(steps)
    ensures Served(t) && Inv(w, t) && OwnSteps(steps) + Ahead(t) <= Ahead(s)
    decreases |steps|
  {
    if steps == [] {
    } else {
      var next := Apply(w, s, steps[0]);
      KeepInv(w, s, steps[0]);
      if IsOwnStep(steps[0]) {
        OwnStepIsNearer(w, s, steps[0]);
      }
      OwnStepsRunOut(w, next, steps[1..], t);
    }
  }

  /** Whoever keeps the connection gets `done`: from any state in which the thread is done,
      the coroutine takes at most Ahead own steps, however the clock runs; as long as it can
      take one it has not ended, and when it can take none it has sent `done` last. */
  lemma EveryResponseEnds(w: World, s: State, steps: seq<Step>, t: State)
    requires Reachable(w, s) && Served(s) && Leads(w, s, steps, t) && ClientStays(steps)
    ensures OwnSteps(steps) <= Ahead(s)
    ensures (exists step :: IsOwnStep(step) && Enabled(t, step)) <==> t.consumer != Stopped(Finished)
    ensures t.consumer == Stopped(Finished) ==> IsWhole(w, t, t.sent) && t.sent[|t.sent| - 1] == Done
  {
    ReachableKeeps(w, s);
    OwnStepsRunOut(w, s, steps, t);
    if t.consumer == Stopped(Finished) {
      QueryGuarantees.WholeEnds(w, t, t.sent);
    } else {
      OwnStepIsEnabled(t);
    }
  }
}
