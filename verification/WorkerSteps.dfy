/** The ingest workers, the upload and delete requests, and time, as a step system over
    the job tables. One step is one SQL statement (or one event between two of them), so
    a run may interleave any number of workers and kill any of them anywhere. */
module WorkerSteps {
  import opened JobTables

  type WorkerId = nat

  /** What `claim_job` hands to the worker, with the deadline of its lease. */
  datatype Attempt = Attempt(job: JobId, doc: DocId, key: Key, pdf: Pdf, number: nat, deadline: real)

  /** Where `process_job` is, between two statements. */
  datatype Phase =
    | CheckDocument
    | OpenPdf
    | Ingesting(pos: nat, target: DocId)
    | CompletingJob
    | ReadingBudget(missingBlob: bool)
    | RecordingFailure(missingBlob: bool, attempts: nat, maxAttempts: nat)
    | RejectingDocument

  datatype Worker =
    | Working(attempt: Attempt, phase: Phase)
    | AboutToReap
    | Rejecting(remaining: set<DocId>)

  /** Workers that are idle, dead or not started yet are absent from `workers`.
      `uploads` are documents whose request has not enqueued its job yet, `usedKeys` the
      random keys handed out so far, `claims` every (job, attempt) pair ever claimed. */
  datatype State = State(
    t: Tables,
    workers: map<WorkerId, Worker>,
    uploads: set<DocId>,
    usedKeys: set<Key>,
    claims: seq<(JobId, nat)>)

  const InitialState := State(EmptyTables, map[], {}, {}, [])

  datatype Step =
    | CreatePending(newKey: Key)
    | Enqueue(d: DocId, pdf: Pdf)
    | AbandonUpload(d: DocId)
    | Delete(d: DocId)
    | Tick(time: real)
    | Claim(w: WorkerId, j: JobId)
    | FindNothing(w: WorkerId)
    | Reap(w: WorkerId)
    | RejectReaped(w: WorkerId, d: DocId)
    | SeeDocument(w: WorkerId)
    | Open(w: WorkerId)
    | Send(w: WorkerId)
    | Progress(w: WorkerId, stage: Stage)
    | FinishIngest(w: WorkerId)
    | Complete(w: WorkerId)
    | Raise(w: WorkerId, missingBlob: bool)
    | ReadBudget(w: WorkerId)
    | RecordFail(w: WorkerId)
    | Reject(w: WorkerId)
    | Crash(w: WorkerId)

  predicate IsWorking(s: State, w: WorkerId) {
    w in s.workers && s.workers[w].Working?
  }

  predicate InPhase(s: State, w: WorkerId, p: Phase) {
    IsWorking(s, w) && s.workers[w].phase == p
  }

  function AttemptOf(s: State, w: WorkerId): Attempt
    requires IsWorking(s, w)
  {
    s.workers[w].attempt
  }

  predicate Ingests(s: State, w: WorkerId) {
    IsWorking(s, w) && s.workers[w].phase.Ingesting?
  }

  /** The next statement of an ingest under way. */
  function NextStatement(a: Attempt, p: Phase): Statement
    requires p.Ingesting? && p.pos < |a.pdf.chunks| + 2
  {
    IngestProgram(a.key, a.pdf, p.target)[p.pos]
  }

  ghost predicate Enabled(s: State, step: Step) {
    match step
    case CreatePending(key) => key !in s.usedKeys
    case Enqueue(d, _) => d in s.uploads && d in s.t.documents
    case AbandonUpload(d) => d in s.uploads
    case Delete(d) => d in s.t.documents
    case Tick(time) => s.t.now <= time
    case Claim(w, j) => w !in s.workers && OldestClaimable(s.t, j)
    case FindNothing(w) => w !in s.workers && forall j :: j in s.t.jobs ==> !Claimable(s.t, j)
    case Reap(w) => w in s.workers && s.workers[w].AboutToReap?
    case RejectReaped(w, d) => w in s.workers && s.workers[w].Rejecting? && d in s.workers[w].remaining
    case SeeDocument(w) => InPhase(s, w, CheckDocument)
    case Open(w) => InPhase(s, w, OpenPdf) && AttemptOf(s, w).pdf.pageCount <= MAX_PAGE_COUNT
    case Send(w) =>
      && Ingests(s, w)
      && s.workers[w].phase.pos < |AttemptOf(s, w).pdf.chunks| + 2
      && !Raises(s.t, NextStatement(AttemptOf(s, w), s.workers[w].phase))
    case Progress(w, stage) => Ingests(s, w) && !stage.AtDone?
    case FinishIngest(w) =>
      && Ingests(s, w)
      && s.workers[w].phase.pos == |AttemptOf(s, w).pdf.chunks| + 2
      && AttemptOf(s, w).pdf.hasText
    case Complete(w) => InPhase(s, w, CompletingJob)
    case Raise(w, missingBlob) =>
      && IsWorking(s, w)
      && (s.workers[w].phase.OpenPdf?
          || (!missingBlob && (s.workers[w].phase.Ingesting? || s.workers[w].phase.CompletingJob?)))
    case ReadBudget(w) => IsWorking(s, w) && s.workers[w].phase.ReadingBudget?
    case RecordFail(w) => IsWorking(s, w) && s.workers[w].phase.RecordingFailure?
    case Reject(w) => InPhase(s, w, RejectingDocument)
    case Crash(w) => w in s.workers
  }

  function Goto(s: State, w: WorkerId, p: Phase): State
    requires IsWorking(s, w)
  {
    s.(workers := s.workers[w := Working(AttemptOf(s, w), p)])
  }

  function Leave(s: State, w: WorkerId): State {
    s.(workers := s.workers - {w})
  }

  /** The loop over the documents that a reaping statement returned. */
  function GoOnRejecting(s: State, w: WorkerId, docs: set<DocId>): State {
    if docs == {} then Leave(s, w) else s.(workers := s.workers[w := Rejecting(docs)])
  }

  /** After `fail_job`: only the general handler goes on to reject the document. */
  function AfterFailure(s: State, w: WorkerId, missingBlob: bool, retried: bool): State
    requires IsWorking(s, w)
  {
    if missingBlob || retried then Leave(s, w) else Goto(s, w, RejectingDocument)
  }

  ghost function Apply(s: State, step: Step): State
    requires Enabled(s, step)
  {
    match step
    case CreatePending(key) =>
      s.(t := CreatePendingDocument(s.t, key), uploads := s.uploads + {s.t.nextDoc}, usedKeys := s.usedKeys + {key})
    case Enqueue(d, pdf) =>
      s.(t := EnqueueJob(s.t, d, s.t.documents[d].name, pdf), uploads := s.uploads - {d})
    case AbandonUpload(d) => s.(uploads := s.uploads - {d})
    case Delete(d) => s.(t := DeleteDocument(s.t, d))
    case Tick(time) => s.(t := s.t.(now := time))
    case Claim(w, j) =>
      var job := s.t.jobs[j];
      var a := Attempt(j, job.doc, job.key, job.pdf, job.attempts + 1, s.t.now + VISIBILITY_TIMEOUT_S);
      s.(t := ClaimJob(s.t, j), workers := s.workers[w := Working(a, CheckDocument)],
         claims := s.claims + [(j, job.attempts + 1)])
    case FindNothing(w) => s.(workers := s.workers[w := AboutToReap])
    case Reap(w) => GoOnRejecting(s.(t := ReapExhausted(s.t)), w, ReapedDocuments(s.t))
    case RejectReaped(w, d) =>
      GoOnRejecting(s.(t := MarkDocumentFailed(s.t, d)), w, s.workers[w].remaining - {d})
    case SeeDocument(w) =>
      if AttemptOf(s, w).doc in s.t.documents then Goto(s, w, OpenPdf) else Leave(s, w)
    case Open(w) => Goto(s, w, Ingesting(0, 0))
    case Send(w) =>
      var a, p := AttemptOf(s, w), s.workers[w].phase;
      var target := if p.pos == 0 then UpsertTarget(s.t, a.key) else p.target;
      Goto(s.(t := Execute(s.t, NextStatement(a, p))), w, Ingesting(p.pos + 1, target))
    case Progress(w, stage) => s.(t := UpdateDocumentStage(s.t, AttemptOf(s, w).doc, stage))
    case FinishIngest(w) =>
      var a := AttemptOf(s, w);
      Goto(s.(t := MarkDocumentReady(s.t, a.doc, |a.pdf.chunks|)), w, CompletingJob)
    case Complete(w) => Leave(s.(t := CompleteJob(s.t, AttemptOf(s, w).job)), w)
    case Raise(w, missingBlob) => Goto(s, w, ReadingBudget(missingBlob))
    case ReadBudget(w) =>
      var j, missingBlob := AttemptOf(s, w).job, s.workers[w].phase.missingBlob;
      if j in s.t.jobs
      then Goto(s, w, RecordingFailure(missingBlob, s.t.jobs[j].attempts, s.t.jobs[j].maxAttempts))
      else AfterFailure(s, w, missingBlob, false)
    case RecordFail(w) =>
      var p := s.workers[w].phase;
      var s' := s.(t := RecordFailure(s.t, AttemptOf(s, w).job, p.attempts, p.maxAttempts));
      AfterFailure(s', w, p.missingBlob, p.attempts < p.maxAttempts)
    case Reject(w) => Leave(s.(t := MarkDocumentFailed(s.t, AttemptOf(s, w).doc)), w)
    case Crash(w) => Leave(s, w)
  }

  // ----- Runs -----

  ghost predicate Valid(s: State, steps: seq<Step>)
    decreases |steps|
  {
    steps == [] || (Enabled(s, steps[0]) && Valid(Apply(s, steps[0]), steps[1..]))
  }

  ghost function Run(s: State, steps: seq<Step>): State
    requires Valid(s, steps)
    decreases |steps|
  {
    if steps == [] then s else Run(Apply(s, steps[0]), steps[1..])
  }

  lemma {:induction false} RunOneMore(s: State, steps: seq<Step>, last: Step)
    requires Valid(s, steps) && Enabled(Run(s, steps), last)
    ensures Valid(s, steps + [last]) && Run(s, steps + [last]) == Apply(Run(s, steps), last)
    decreases |steps|
  {
    if steps == [] {
      assert [] + [last] == [last];
      assert [last][1..] == [];
    } else {
      assert (steps + [last])[1..] == steps[1..] + [last];
      RunOneMore(Apply(s, steps[0]), steps[1..], last);
    }
  }

  /** A run written out: the states it goes through. */
  ghost predicate IsRun(states: seq<State>, steps: seq<Step>) {
    && |states| == |steps| + 1
    && forall i {:trigger steps[i]} :: 0 <= i < |steps| ==>
         Enabled(states[i], steps[i]) && states[i + 1] == Apply(states[i], steps[i])
  }

  lemma {:induction false} WrittenOutRun(states: seq<State>, steps: seq<Step>)
    requires IsRun(states, steps)
    ensures Valid(states[0], steps) && Run(states[0], steps) == states[|steps|]
    decreases |steps|
  {
    if steps == [] {
    } else {
      var n := |steps| - 1;
      assert IsRun(states[..n + 1], steps[..n]) by {
        forall i | 0 <= i < n ensures steps[..n][i] == steps[i] {}
      }
      WrittenOutRun(states[..n + 1], steps[..n]);
      assert steps[..n] + [steps[n]] == steps;
      RunOneMore(states[0], steps[..n], steps[n]);
    }
  }

  lemma ExtendWrittenOut(states: seq<State>, steps: seq<Step>, last: Step)
    requires IsRun(states, steps) && Enabled(states[|steps|], last)
    ensures IsRun(states + [Apply(states[|steps|], last)], steps + [last])
  {
    var states', steps' := states + [Apply(states[|steps|], last)], steps + [last];
    forall i {:trigger steps'[i]} | 0 <= i < |steps'|
      ensures Enabled(states'[i], steps'[i]) && states'[i + 1] == Apply(states'[i], steps'[i])
    {
      if i < |steps| { assert steps'[i] == steps[i]; }
    }
  }

  /** The lease assumption: time passes a worker's deadline only once the worker has
      finished its attempt or died. */
  ghost predicate KeepsLease(s: State, step: Step) {
    step.Tick? ==> forall w :: IsWorking(s, w) ==> step.time <= AttemptOf(s, w).deadline
  }

  ghost predicate ValidUnderLease(s: State, steps: seq<Step>)
    decreases |steps|
  {
    steps == [] ||
    (Enabled(s, steps[0]) && KeepsLease(s, steps[0]) && ValidUnderLease(Apply(s, steps[0]), steps[1..]))
  }

  lemma LeaseRunIsRun(s: State, steps: seq<Step>)
    requires ValidUnderLease(s, steps)
    ensures Valid(s, steps)
    decreases |steps|
  {
    if steps != [] {
      LeaseRunIsRun(Apply(s, steps[0]), steps[1..]);
    }
  }
}
