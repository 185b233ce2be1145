/** When a dead-lettered job has a rejected document: exactly when no step abandoned the
    rejection. The two steps that do are the handler of a missing blob, which never
    rejects, and the death of a worker between the two writes. */
module QueueAgreement {
  import opened JobTables
  import opened WorkerSteps
  import opened QueueInvariant
  import opened QueueSafety

  /** The worker is about to reject document d, which belongs to job j. */
  predicate Owes(worker: Worker, j: JobId, d: DocId) {
    match worker
    case Working(a, p) => a.job == j && p.RejectingDocument?
    case AboutToReap => false
    case Rejecting(remaining) => d in remaining
  }

  predicate OwedBy(s: State, w: WorkerId, j: JobId) {
    j in s.t.jobs && w in s.workers && Owes(s.workers[w], j, s.t.jobs[j].doc)
  }

  predicate IsRejected(s: State, j: JobId) {
    && j in s.t.jobs && s.t.jobs[j].doc in s.t.documents
    && s.t.documents[s.t.jobs[j].doc].status.Rejected?
  }

  /** The document of job j is rejected, or a live worker is about to reject it. */
  ghost predicate Agrees(s: State, j: JobId) {
    IsRejected(s, j) || exists w :: OwedBy(s, w, j)
  }

  /** A step that leaves the document of job j unrejected for good: `fail_job` for a
      missing blob, out of budget, or the death of the worker that was to reject it. */
  predicate Abandons(s: State, step: Step, j: JobId) {
    match step
    case RecordFail(w) =>
      && j in s.t.jobs && w in s.workers && OnJob(s.workers[w], j) && s.workers[w].phase.RecordingFailure?
      && s.workers[w].phase.missingBlob && s.workers[w].phase.maxAttempts <= s.workers[w].phase.attempts
    case Crash(w) => OwedBy(s, w, j)
    case _ => false
  }

  ghost predicate Abandoned(s: State, steps: seq<Step>, j: JobId)
    requires Valid(s, steps)
    decreases |steps|
  {
    steps != [] && (Abandons(s, steps[0], j) || Abandoned(Apply(s, steps[0]), steps[1..], j))
  }

  // ----- What every step keeps -----

  /** At most one worker owes the rejection, and only while it is still due. */
  ghost predicate OwedOnce(s: State, j: JobId) {
    && (forall v, w :: OwedBy(s, v, j) && OwedBy(s, w, j) ==> v == w)
    && (forall w :: OwedBy(s, w, j) ==> !IsRejected(s, j))
  }

  /** `gone` says whether the rejection of job j has been abandoned so far. */
  ghost predicate Linked(s: State, j: JobId, gone: bool) {
    && OwedOnce(s, j)
    && (gone ==> j < s.t.nextJob)
    && (j in s.t.jobs && gone ==> s.t.jobs[j].status.Failed?)
    && (j in s.t.jobs && s.t.jobs[j].status.Failed? ==> (Agrees(s, j) <==> !gone))
  }

  lemma OwedIsFailed(s: State, w: WorkerId, j: JobId)
    requires Inv(s) && OwedBy(s, w, j)
    ensures s.t.jobs[j].status.Failed?
  {
    assert WorkerOk(s, s.workers[w]);
  }

  /** Nothing about job j, its document's rejection and who owes it has changed. */
  ghost predicate Unmoved(s: State, s': State, j: JobId) {
    && j in s.t.jobs && j in s'.t.jobs && s'.t.nextJob >= s.t.nextJob
    && (s'.t.jobs[j].status.Failed? <==> s.t.jobs[j].status.Failed?)
    && (IsRejected(s', j) <==> IsRejected(s, j))
    && forall w :: OwedBy(s', w, j) <==> OwedBy(s, w, j)
  }

  lemma UnmovedKeepsLink(s: State, s': State, j: JobId, gone: bool)
    requires Linked(s, j, gone) && Unmoved(s, s', j)
    ensures Linked(s', j, gone)
  {}

  /** Steps that write no status and move no worker that owes a rejection. */
  lemma PlainStepUnmoved(s: State, step: Step, j: JobId)
    requires Enabled(s, step) && j in s.t.jobs && (step.AbandonUpload? || step.Tick? || step.FindNothing?)
    ensures Unmoved(s, Apply(s, step), j)
  {}

  lemma UploadStepUnmoved(s: State, step: Step, j: JobId)
    requires Enabled(s, step) && j in s.t.jobs && (step.CreatePending? || step.Enqueue?)
    requires DocumentsOk(s) && JobOk(s.t, j)
    ensures Unmoved(s, Apply(s, step), j)
  {}

  lemma ClaimUnmoved(s: State, step: Step, j: JobId)
    requires Enabled(s, step) && j in s.t.jobs && step.Claim?
    ensures Unmoved(s, Apply(s, step), j)
  {}

  lemma ControlStepUnmoved(s: State, step: Step, j: JobId)
    requires Enabled(s, step) && j in s.t.jobs && (step.SeeDocument? || step.Open? || step.Raise?)
    ensures Unmoved(s, Apply(s, step), j)
  {}

  lemma ReadBudgetUnmoved(s: State, step: Step, j: JobId)
    requires Enabled(s, step) && j in s.t.jobs && step.ReadBudget?
    ensures Unmoved(s, Apply(s, step), j)
  {}

  lemma ProgressUnmoved(s: State, step: Step, j: JobId)
    requires Enabled(s, step) && j in s.t.jobs && step.Progress?
    ensures Unmoved(s, Apply(s, step), j)
  {}

  lemma SendUnmoved(s: State, step: Step, j: JobId)
    requires Enabled(s, step) && j in s.t.jobs && step.Send?
    requires DocumentsOk(s) && JobOk(s.t, j)
    ensures Unmoved(s, Apply(s, step), j)
  {}

  /** A worker that finishes or completes is on a job that is not dead-lettered. */
  lemma FinishIngestUnmoved(s: State, step: Step, j: JobId)
    requires Enabled(s, step) && j in s.t.jobs && step.FinishIngest?
    requires JobOk(s.t, j) && WorkerOk(s, s.workers[step.w])
    ensures Unmoved(s, Apply(s, step), j)
  {}

  lemma CompleteUnmoved(s: State, step: Step, j: JobId)
    requires Enabled(s, step) && j in s.t.jobs && step.Complete?
    requires JobOk(s.t, j) && WorkerOk(s, s.workers[step.w])
    ensures Unmoved(s, Apply(s, step), j)
  {}

  /** Nobody owes a rejection while the job is not dead-lettered. */
  lemma NobodyOwes(s: State, j: JobId)
    requires Inv(s) && j in s.t.jobs && !s.t.jobs[j].status.Failed?
    ensures forall w :: !OwedBy(s, w, j)
    ensures !IsRejected(s, j)
  {
    assert JobOk(s.t, j);
    forall w ensures !OwedBy(s, w, j) {
      assert w in s.workers ==> WorkerOk(s, s.workers[w]);
    }
  }

  lemma RecordFailElsewhere(s: State, step: Step, j: JobId)
    requires Enabled(s, step) && j in s.t.jobs && step.RecordFail? && !OnJob(s.workers[step.w], j)
    ensures Unmoved(s, Apply(s, step), j)
  {}

  lemma RecordFailHere(s: State, step: Step, j: JobId, gone: bool)
    requires Inv(s) && Enabled(s, step) && j in s.t.jobs && Linked(s, j, gone)
    requires step.RecordFail? && OnJob(s.workers[step.w], j)
    ensures Linked(Apply(s, step), j, gone || Abandons(s, step, j))
  {
    assert JobOk(s.t, j);
    assert WorkerOk(s, s.workers[step.w]);
    NobodyOwes(s, j);
    if s.workers[step.w].phase.attempts < s.workers[step.w].phase.maxAttempts {
      RetryHere(s, step, j, gone);
    } else {
      DeadLetterHere(s, step, j, gone);
    }
  }

  lemma RetryHere(s: State, step: Step, j: JobId, gone: bool)
    requires Enabled(s, step) && Linked(s, j, gone) && step.RecordFail? && OnJob(s.workers[step.w], j)
    requires s.workers[step.w].phase.attempts < s.workers[step.w].phase.maxAttempts
    requires j in s.t.jobs && !s.t.jobs[j].status.Failed? && forall w :: !OwedBy(s, w, j)
    ensures Linked(Apply(s, step), j, gone || Abandons(s, step, j))
  {
    forall w ensures !OwedBy(Apply(s, step), w, j) {
      assert !OwedBy(s, w, j);
    }
  }

  lemma DeadLetterHere(s: State, step: Step, j: JobId, gone: bool)
    requires Enabled(s, step) && Linked(s, j, gone) && step.RecordFail? && OnJob(s.workers[step.w], j)
    requires s.workers[step.w].phase.maxAttempts <= s.workers[step.w].phase.attempts
    requires j in s.t.jobs && j < s.t.nextJob && !s.t.jobs[j].status.Failed? && !IsRejected(s, j)
    requires forall w :: !OwedBy(s, w, j)
    ensures Linked(Apply(s, step), j, gone || Abandons(s, step, j))
  {
    var s' := Apply(s, step);
    forall w | w != step.w ensures !OwedBy(s', w, j) {
      assert !OwedBy(s, w, j);
    }
    assert OwedBy(s', step.w, j) <==> !s.workers[step.w].phase.missingBlob;
  }

  /** Once the only worker that owes it has moved on, nobody owes the rejection. */
  lemma NobodyElseOwes(s: State, s': State, w: WorkerId, j: JobId)
    requires OwedOnce(s, j) && OwedBy(s, w, j) && !OwedBy(s', w, j)
    requires forall v :: OwedBy(s', v, j) && v != w ==> OwedBy(s, v, j)
    ensures forall v :: !OwedBy(s', v, j)
  {}

  lemma RejectLinked(s: State, step: Step, j: JobId, gone: bool)
    requires Inv(s) && Enabled(s, step) && j in s.t.jobs && Linked(s, j, gone) && step.Reject?
    ensures Linked(Apply(s, step), j, gone || Abandons(s, step, j))
  {
    var w, s' := step.w, Apply(s, step);
    assert JobOk(s.t, j) && WorkerOk(s, s.workers[w]);
    if s.workers[w].attempt.job == j {
      assert OwedBy(s, w, j);
      OwedIsFailed(s, w, j);
      RejectHere(s, step, j, gone);
    } else {
      RejectElsewhere(s, step, j);
      UnmovedKeepsLink(s, s', j, gone);
    }
  }

  lemma RejectHere(s: State, step: Step, j: JobId, gone: bool)
    requires Enabled(s, step) && step.Reject? && Linked(s, j, gone) && OwedBy(s, step.w, j)
    requires s.t.jobs[j].status.Failed? && s.t.jobs[j].doc in s.t.documents
    requires s.workers[step.w].attempt.job == j && s.workers[step.w].attempt.doc == s.t.jobs[j].doc
    ensures Linked(Apply(s, step), j, gone || Abandons(s, step, j))
  {
    NobodyElseOwes(s, Apply(s, step), step.w, j);
    assert IsRejected(Apply(s, step), j);
  }

  lemma RejectElsewhere(s: State, step: Step, j: JobId)
    requires Enabled(s, step) && step.Reject? && j in s.t.jobs
    requires s.workers[step.w].attempt.job != j && s.workers[step.w].attempt.doc != s.t.jobs[j].doc
    ensures Unmoved(s, Apply(s, step), j)
  {}

  /** One document less to reject for worker w. */
  lemma RejectReapedMoves(s: State, step: Step, j: JobId)
    requires Enabled(s, step) && j in s.t.jobs && step.RejectReaped? && s.t.jobs[j].doc in s.t.documents
    ensures var s' := Apply(s, step);
            && s'.t.nextJob == s.t.nextJob && s'.t.jobs == s.t.jobs
            && (forall v :: v != step.w ==> (OwedBy(s', v, j) <==> OwedBy(s, v, j)))
            && (OwedBy(s', step.w, j) <==> OwedBy(s, step.w, j) && s.t.jobs[j].doc != step.d)
            && (IsRejected(s', j) <==> IsRejected(s, j) || s.t.jobs[j].doc == step.d)
  {
    var w, s' := step.w, Apply(s, step);
    assert w in s'.workers ==> s'.workers[w] == Rejecting(s.workers[w].remaining - {step.d});
  }

  lemma RejectReapedLinked(s: State, step: Step, j: JobId, gone: bool)
    requires Inv(s) && Enabled(s, step) && j in s.t.jobs && Linked(s, j, gone) && step.RejectReaped?
    ensures Linked(Apply(s, step), j, gone || Abandons(s, step, j))
  {
    var w, s' := step.w, Apply(s, step);
    assert JobOk(s.t, j);
    RejectReapedMoves(s, step, j);
    if s.t.jobs[j].doc == step.d {
      assert OwedBy(s, w, j);
      OwedIsFailed(s, w, j);
      NobodyElseOwes(s, s', w, j);
    } else {
      UnmovedKeepsLink(s, s', j, gone);
    }
  }

  lemma CrashLinked(s: State, step: Step, j: JobId, gone: bool)
    requires Inv(s) && Enabled(s, step) && j in s.t.jobs && Linked(s, j, gone) && step.Crash?
    ensures Linked(Apply(s, step), j, gone || Abandons(s, step, j))
  {
    if OwedBy(s, step.w, j) {
      OwedIsFailed(s, step.w, j);
      NobodyElseOwes(s, Apply(s, step), step.w, j);
      assert JobOk(s.t, j);
    } else {
      UnmovedKeepsLink(s, Apply(s, step), j, gone);
    }
  }

  lemma ReapedLinked(s: State, step: Step, j: JobId, gone: bool)
    requires Inv(s) && Enabled(s, step) && Linked(s, j, gone) && step.Reap? && Reapable(s.t, j)
    ensures Linked(Apply(s, step), j, gone)
  {
    NobodyOwes(s, j);
    assert JobOk(s.t, j);
    assert s.t.jobs[j].doc in ReapedDocuments(s.t);
    assert OwedBy(Apply(s, step), step.w, j);
  }

  lemma UnreapedUnmoved(s: State, step: Step, j: JobId)
    requires JobsOk(s.t) && Enabled(s, step) && j in s.t.jobs && step.Reap? && !Reapable(s.t, j)
    ensures Unmoved(s, Apply(s, step), j)
  {
    assert s.t.jobs[j].doc !in ReapedDocuments(s.t);
  }

  lemma ReapLinked(s: State, step: Step, j: JobId, gone: bool)
    requires Inv(s) && Enabled(s, step) && j in s.t.jobs && Linked(s, j, gone) && step.Reap?
    ensures Linked(Apply(s, step), j, gone || Abandons(s, step, j))
  {
    if Reapable(s.t, j) {
      ReapedLinked(s, step, j, gone);
    } else {
      UnreapedUnmoved(s, step, j);
      UnmovedKeepsLink(s, Apply(s, step), j, gone);
    }
  }

  lemma DeleteLinked(s: State, step: Step, j: JobId, gone: bool)
    requires Inv(s) && Enabled(s, step) && j in s.t.jobs && Linked(s, j, gone) && step.Delete?
    ensures Linked(Apply(s, step), j, gone || Abandons(s, step, j))
  {
    assert JobOk(s.t, j);
    if step.d != s.t.jobs[j].doc {
      UnmovedKeepsLink(s, Apply(s, step), j, gone);
    }
  }

  /** A new job's document is an upload, which nobody rejects. */
  lemma EnqueuedLinked(s: State, step: Step, j: JobId, gone: bool)
    requires Inv(s) && Enabled(s, step) && j !in s.t.jobs && Linked(s, j, gone) && step.Enqueue?
    ensures Linked(Apply(s, step), j, gone)
  {
    var s' := Apply(s, step);
    if j in s'.t.jobs {
      forall w ensures !OwedBy(s', w, j) {
        assert w in s.workers ==> WorkerOk(s, s.workers[w]);
      }
    }
  }

  lemma OnlyEnqueueAdds(s: State, step: Step, j: JobId)
    requires Enabled(s, step) && j !in s.t.jobs && !step.Enqueue?
    ensures j !in Apply(s, step).t.jobs && Apply(s, step).t.nextJob == s.t.nextJob
  {}

  lemma NewJobLinked(s: State, step: Step, j: JobId, gone: bool)
    requires Inv(s) && Enabled(s, step) && j !in s.t.jobs && Linked(s, j, gone)
    ensures Linked(Apply(s, step), j, gone || Abandons(s, step, j))
  {
    if step.Enqueue? {
      EnqueuedLinked(s, step, j, gone);
    } else {
      OnlyEnqueueAdds(s, step, j);
    }
  }

  lemma RecordFailLinked(s: State, step: Step, j: JobId, gone: bool)
    requires Inv(s) && Enabled(s, step) && j in s.t.jobs && Linked(s, j, gone) && step.RecordFail?
    ensures Linked(Apply(s, step), j, gone || Abandons(s, step, j))
  {
    if OnJob(s.workers[step.w], j) {
      RecordFailHere(s, step, j, gone);
    } else {
      RecordFailElsewhere(s, step, j);
      UnmovedKeepsLink(s, Apply(s, step), j, gone);
    }
  }

  lemma QuietLinked(s: State, step: Step, j: JobId, gone: bool)
    requires Inv(s) && Enabled(s, step) && j in s.t.jobs && Linked(s, j, gone)
    requires !IsRejectionStep(step)
    ensures Linked(Apply(s, step), j, gone || Abandons(s, step, j))
  {
    QuietStepUnmoved(s, step, j);
    UnmovedKeepsLink(s, Apply(s, step), j, gone);
  }

  predicate IsRejectionStep(step: Step) {
    step.RecordFail? || step.Reject? || step.RejectReaped? || step.Crash? || step.Reap? || step.Delete?
  }

  lemma RejectionLinked(s: State, step: Step, j: JobId, gone: bool)
    requires Inv(s) && Enabled(s, step) && j in s.t.jobs && Linked(s, j, gone) && IsRejectionStep(step)
    ensures Linked(Apply(s, step), j, gone || Abandons(s, step, j))
  {
    if step.RecordFail? {
      RecordFailLinked(s, step, j, gone);
    } else if step.Reject? {
      RejectLinked(s, step, j, gone);
    } else if step.RejectReaped? {
      RejectReapedLinked(s, step, j, gone);
    } else if step.Crash? {
      CrashLinked(s, step, j, gone);
    } else if step.Reap? {
      ReapLinked(s, step, j, gone);
    } else {
      DeleteLinked(s, step, j, gone);
    }
  }

  lemma KeepLinked(s: State, step: Step, j: JobId, gone: bool)
    requires Inv(s) && Enabled(s, step) && Linked(s, j, gone)
    ensures Linked(Apply(s, step), j, gone || Abandons(s, step, j))
  {
    if j !in s.t.jobs {
      NewJobLinked(s, step, j, gone);
    } else if IsRejectionStep(step) {
      RejectionLinked(s, step, j, gone);
    } else {
      QuietLinked(s, step, j, gone);
    }
  }

  predicate IsIngestStep(step: Step) {
    step.Send? || step.FinishIngest? || step.Complete? || step.Progress?
  }

  lemma IngestStepUnmoved(s: State, step: Step, j: JobId)
    requires Inv(s) && Enabled(s, step) && j in s.t.jobs && IsIngestStep(step)
    ensures Unmoved(s, Apply(s, step), j)
  {
    assert JobOk(s.t, j) && WorkerOk(s, s.workers[step.w]);
    match step {
      case Progress(_, _) => ProgressUnmoved(s, step, j);
      case Send(_) => SendUnmoved(s, step, j);
      case FinishIngest(_) => FinishIngestUnmoved(s, step, j);
      case Complete(_) => CompleteUnmoved(s, step, j);
    }
  }

  predicate IsControlStep(step: Step) {
    step.SeeDocument? || step.Open? || step.Raise? || step.ReadBudget?
  }

  lemma OutsideStepUnmoved(s: State, step: Step, j: JobId)
    requires Inv(s) && Enabled(s, step) && j in s.t.jobs
    requires !IsRejectionStep(step) && !IsIngestStep(step) && !IsControlStep(step)
    ensures Unmoved(s, Apply(s, step), j)
  {
    assert JobOk(s.t, j);
    if step.CreatePending? || step.Enqueue? {
      UploadStepUnmoved(s, step, j);
    } else if step.Claim? {
      ClaimUnmoved(s, step, j);
    } else {
      PlainStepUnmoved(s, step, j);
    }
  }

  lemma QuietStepUnmoved(s: State, step: Step, j: JobId)
    requires Inv(s) && Enabled(s, step) && j in s.t.jobs && !IsRejectionStep(step)
    ensures Unmoved(s, Apply(s, step), j)
  {
    if IsIngestStep(step) {
      IngestStepUnmoved(s, step, j);
    } else if step.ReadBudget? {
      ReadBudgetUnmoved(s, step, j);
    } else if IsControlStep(step) {
      ControlStepUnmoved(s, step, j);
    } else {
      OutsideStepUnmoved(s, step, j);
    }
  }

  // ----- Every run -----

  lemma {:induction false} LinkedOverRun(s: State, steps: seq<Step>, j: JobId, gone: bool)
    requires Inv(s) && ValidUnderLease(s, steps) && Linked(s, j, gone)
    ensures Valid(s, steps) && Linked(Run(s, steps), j, gone || Abandoned(s, steps, j))
    decreases |steps|
  {
    if steps == [] {
    } else {
      KeepInv(s, steps[0]);
      KeepLinked(s, steps[0], j, gone);
      LinkedOverRun(Apply(s, steps[0]), steps[1..], j, gone || Abandons(s, steps[0], j));
    }
  }

  /** Over every run under the lease: the document of a dead-lettered job is rejected, or a
      live worker is about to reject it, if and only if no step of the run abandoned the
      rejection. */
  lemma AgreementExactly(steps: seq<Step>, j: JobId)
    requires ValidUnderLease(InitialState, steps)
    ensures Valid(InitialState, steps)
    ensures var s := Run(InitialState, steps);
            j in s.t.jobs && s.t.jobs[j].status.Failed? ==>
              s.t.jobs[j].doc in s.t.documents && (Agrees(s, j) <==> !Abandoned(InitialState, steps, j))
  {
    InvOverRun(InitialState, steps);
    LinkedOverRun(InitialState, steps, j, false);
    var t := Run(InitialState, steps).t;
    assert j in t.jobs ==> JobOk(t, j);
  }
}
