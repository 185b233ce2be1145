/** Where the guarantees of the ingest queue end: a job that outlived leases lose, with the
    exact condition over all runs, and the runs by which a dead-lettered job leaves its
    document in progress (module QueueAgreement has the exact condition for these). */
module QueueLimits {
  import opened JobTables
  import opened WorkerSteps
  import opened QueueInvariant
  import opened QueueSafety
  import opened QueueProgress

  // ----- Why the lease assumption is needed -----

  /** A queued row with no attempts left: neither claimable nor reapable. */
  predicate Exhausted(t: Tables, j: JobId) {
    j in t.jobs && t.jobs[j].status.Queued? && t.jobs[j].maxAttempts <= t.jobs[j].attempts
  }

  /** Such a row that no live worker is on. */
  ghost predicate Stranded(s: State, j: JobId) {
    Exhausted(s.t, j) && forall w :: w in s.workers ==> !OnJob(s.workers[w], j)
  }

  /** A stranded job is lost: no continuation, leases or not, ever changes it, short of
      deleting its document. */
  lemma {:induction false} StrandedForever(s: State, steps: seq<Step>, j: JobId)
    requires Counted(s) && Stranded(s, j) && Valid(s, steps)
    ensures var s' := Run(s, steps);
            j in s'.t.jobs ==> Stranded(s', j)
    decreases |steps|
  {
    if steps == [] {
    } else {
      var s' := Apply(s, steps[0]);
      KeepCounted(s, steps[0]);
      if j in s'.t.jobs {
        StrandedStep(s, steps[0], j);
        StrandedForever(s', steps[1..], j);
      } else {
        GoneForever(s', steps[1..], j);
      }
    }
  }

  lemma StrandedStep(s: State, step: Step, j: JobId)
    requires Counted(s) && Stranded(s, j) && Enabled(s, step) && j in Apply(s, step).t.jobs
    ensures Stranded(Apply(s, step), j)
  {
    ExhaustedByStep(s, step, j);
    NobodyComes(s, step, j);
  }

  /** No step puts a worker on an exhausted job. */
  lemma NobodyComes(s: State, step: Step, j: JobId)
    requires Stranded(s, j) && Enabled(s, step)
    ensures forall w :: w in Apply(s, step).workers ==> !OnJob(Apply(s, step).workers[w], j)
  {
    if !step.Claim? {
      AttemptsKept(s, step);
    }
  }

  lemma {:induction false} GoneForever(s: State, steps: seq<Step>, j: JobId)
    requires Counted(s) && j !in s.t.jobs && j < s.t.nextJob && Valid(s, steps)
    ensures j !in Run(s, steps).t.jobs
    decreases |steps|
  {
    if steps == [] {
    } else {
      if !steps[0].Claim? && !steps[0].Enqueue? { CountersKept(s, steps[0]); }
      KeepCounted(s, steps[0]);
      GoneForever(Apply(s, steps[0]), steps[1..], j);
    }
  }

  /** The write of `fail_job` for job j by a worker whose budget, read earlier, says retry,
      while the row by now has no attempts left. */
  predicate StaleRequeue(s: State, step: Step, j: JobId) {
    && step.RecordFail? && step.w in s.workers && OnJob(s.workers[step.w], j)
    && s.workers[step.w].phase.RecordingFailure?
    && s.workers[step.w].phase.attempts < s.workers[step.w].phase.maxAttempts
    && j in s.t.jobs && s.t.jobs[j].maxAttempts <= s.t.jobs[j].attempts
  }

  /** A write that takes job j off the queue: done, dead-lettered, or deleted. */
  predicate TakesOff(s: State, step: Step, j: JobId) {
    match step
    case Complete(w) => w in s.workers && OnJob(s.workers[w], j)
    case RecordFail(w) =>
      && w in s.workers && OnJob(s.workers[w], j) && s.workers[w].phase.RecordingFailure?
      && s.workers[w].phase.maxAttempts <= s.workers[w].phase.attempts
    case Delete(d) => j in s.t.jobs && s.t.jobs[j].doc == d
    case _ => false
  }

  /** One step, leases or not, exhausts a row exactly if it is such a requeue, and an
      exhausted row stays so exactly until it is taken off. */
  lemma ExhaustedByStep(s: State, step: Step, j: JobId)
    requires Counted(s) && Enabled(s, step)
    ensures !Exhausted(s.t, j) ==> (Exhausted(Apply(s, step).t, j) <==> StaleRequeue(s, step, j))
    ensures Exhausted(s.t, j) ==> (Exhausted(Apply(s, step).t, j) <==> !TakesOff(s, step, j))
  {}

  ghost predicate NeverTakenOff(s: State, steps: seq<Step>, j: JobId)
    requires Valid(s, steps)
    decreases |steps|
  {
    steps == [] || (!TakesOff(s, steps[0], j) && NeverTakenOff(Apply(s, steps[0]), steps[1..], j))
  }

  /** Somewhere in the run is such a requeue after which the job is never taken off. */
  ghost predicate RequeuedForGood(s: State, steps: seq<Step>, j: JobId)
    requires Valid(s, steps)
    decreases |steps|
  {
    steps != [] &&
    var s' := Apply(s, steps[0]);
    || (StaleRequeue(s, steps[0], j) && NeverTakenOff(s', steps[1..], j))
    || RequeuedForGood(s', steps[1..], j)
  }

  lemma {:induction false} ExhaustedOverRun(s: State, steps: seq<Step>, j: JobId)
    requires Counted(s) && Valid(s, steps)
    ensures Exhausted(Run(s, steps).t, j) <==>
              (Exhausted(s.t, j) && NeverTakenOff(s, steps, j)) || RequeuedForGood(s, steps, j)
    decreases |steps|
  {
    if steps == [] {
    } else {
      KeepCounted(s, steps[0]);
      ExhaustedByStep(s, steps[0], j);
      RequeueIsNoTakeOff(s, steps[0], j);
      ExhaustedOverRun(Apply(s, steps[0]), steps[1..], j);
    }
  }

  lemma RequeueIsNoTakeOff(s: State, step: Step, j: JobId)
    ensures StaleRequeue(s, step, j) ==> !TakesOff(s, step, j)
  {}

  /** Over every run, leases or not: a job is stranded at its end if and only if the write
      of `fail_job` requeued it from a stale budget, it was never taken off the queue after
      that, and no live worker is left on it. */
  lemma StrandedExactly(steps: seq<Step>, j: JobId)
    requires Valid(InitialState, steps)
    ensures var s := Run(InitialState, steps);
            Stranded(s, j) <==>
              RequeuedForGood(InitialState, steps, j) && forall w :: w in s.workers ==> !OnJob(s.workers[w], j)
  {
    ExhaustedOverRun(InitialState, steps, j);
  }

  /** Job 0 was claimed n times; worker 0, stalled since the first attempt, is about to
      record a failure with the budget it read then. */
  ghost predicate StaleFailure(s: State, n: nat) {
    && 0 in s.t.jobs && s.t.jobs.Keys == {0}
    && s.t.jobs[0].status.Processing? && s.t.jobs[0].attempts == n && s.t.jobs[0].maxAttempts == 3
    && 0 in s.workers && s.workers[0].Working? && s.workers[0].attempt.job == 0
    && s.workers[0].phase == RecordingFailure(false, 1, 3)
    && s.workers.Keys == {0}
  }

  /** Extends a run from the initial state by two steps. */
  lemma ExtendByTwo(before: seq<Step>, a: Step, b: Step) returns (steps: seq<Step>)
    requires Valid(InitialState, before)
    requires Enabled(Run(InitialState, before), a) && Enabled(Apply(Run(InitialState, before), a), b)
    ensures Valid(InitialState, steps)
    ensures Run(InitialState, steps) == Apply(Apply(Run(InitialState, before), a), b)
  {
    RunOneMore(InitialState, before, a);
    RunOneMore(InitialState, before + [a], b);
    steps := before + [a] + [b];
  }

  lemma FirstClaimStalls(before: seq<Step>) returns (steps: seq<Step>)
    requires Valid(InitialState, before)
    requires var s := Run(InitialState, before);
             && s.workers == map[] && s.t.jobs.Keys == {0} && OldestClaimable(s.t, 0)
             && s.t.jobs[0].attempts == 0 && s.t.jobs[0].maxAttempts == 3 && s.t.jobs[0].doc in s.t.documents
    ensures Valid(InitialState, steps) && StaleFailure(Run(InitialState, steps), 1)
  {
    steps := ExtendByTwo(before, Claim(0, 0), SeeDocument(0));
    var s' := Run(InitialState, steps);
    assert InPhase(s', 0, OpenPdf) && s'.t.jobs.Keys == {0} && s'.workers.Keys == {0};
    steps := ExtendByTwo(steps, Raise(0, false), ReadBudget(0));
  }

  lemma FirstAttemptStalls() returns (steps: seq<Step>)
    ensures Valid(InitialState, steps) && StaleFailure(Run(InitialState, steps), 1)
  {
    steps := ExtendByTwo([], CreatePending("key"), Enqueue(0, Pdf(1, true, [])));
    var s := Run(InitialState, steps);
    assert s.workers == map[] && s.t.jobs.Keys == {0} && OldestClaimable(s.t, 0);
    steps := FirstClaimStalls(steps);
  }

  /** Time passes the deadline, another worker claims the job and dies. */
  lemma Reclaimed(before: seq<Step>, n: nat) returns (steps: seq<Step>)
    requires Valid(InitialState, before) && StaleFailure(Run(InitialState, before), n) && n < 3
    ensures Valid(InitialState, steps) && StaleFailure(Run(InitialState, steps), n + 1)
  {
    var s := Run(InitialState, before);
    var later := if s.t.now < s.t.jobs[0].visibleAt then s.t.jobs[0].visibleAt + 1.0 else s.t.now + 1.0;
    RunOneMore(InitialState, before, Tick(later));
    var s1 := Apply(s, Tick(later));
    assert OldestClaimable(s1.t, 0);
    RunOneMore(InitialState, before + [Tick(later)], Claim(1, 0));
    RunOneMore(InitialState, before + [Tick(later)] + [Claim(1, 0)], Crash(1));
    steps := before + [Tick(later)] + [Claim(1, 0)] + [Crash(1)];
  }

  lemma LeaseStrandsNothing(steps: seq<Step>, j: JobId)
    ensures ValidUnderLease(InitialState, steps) ==>
              Valid(InitialState, steps) && !Stranded(Run(InitialState, steps), j)
  {
    if ValidUnderLease(InitialState, steps) {
      InvOverRun(InitialState, steps);
      if j in Run(InitialState, steps).t.jobs {
        assert JobOk(Run(InitialState, steps).t, j);
      }
    }
  }

  /** Without the lease assumption a job can be lost: `fail_job` reads the budget and
      writes in two statements, so a worker that outlives its lease may requeue a job
      whose attempts others have used up meanwhile. */
  lemma WithoutLeaseAJobIsLost() returns (steps: seq<Step>)
    ensures Valid(InitialState, steps) && !ValidUnderLease(InitialState, steps)
    ensures Stranded(Run(InitialState, steps), 0)
  {
    steps := FirstAttemptStalls();
    steps := Reclaimed(steps, 1);
    steps := Reclaimed(steps, 2);
    RunOneMore(InitialState, steps, RecordFail(0));
    steps := steps + [RecordFail(0)];
    LeaseStrandsNothing(steps, 0);
  }

  // ----- Why a dead-lettered job may leave its document in progress -----

  /** A run under the lease assumption, extended. */
  lemma {:induction false} LeaseRunOneMore(s: State, steps: seq<Step>, last: Step)
    requires ValidUnderLease(s, steps) && Valid(s, steps)
    requires Enabled(Run(s, steps), last) && KeepsLease(Run(s, steps), last)
    ensures ValidUnderLease(s, steps + [last])
    ensures Valid(s, steps + [last]) && Run(s, steps + [last]) == Apply(Run(s, steps), last)
    decreases |steps|
  {
    RunOneMore(s, steps, last);
    if steps == [] {
      assert [] + [last] == [last];
      assert [last][1..] == [];
    } else {
      assert (steps + [last])[1..] == steps[1..] + [last];
      LeaseRunOneMore(Apply(s, steps[0]), steps[1..], last);
    }
  }

  /** Job 0 was claimed n times by workers that died; nobody is alive. */
  ghost predicate Orphaned(s: State, n: nat) {
    && s.workers == map[] && s.t.jobs.Keys == {0} && s.t.documents.Keys == {0} && s.t.jobs[0].doc == 0
    && s.t.documents[0].status.InProgress?
    && s.t.jobs[0].attempts == n && s.t.jobs[0].maxAttempts == 3
    && (s.t.jobs[0].status.Queued? || (s.t.jobs[0].status.Processing? && s.t.jobs[0].visibleAt < s.t.now))
  }

  lemma FreshJob() returns (steps: seq<Step>)
    ensures ValidUnderLease(InitialState, steps) && Valid(InitialState, steps)
    ensures Orphaned(Run(InitialState, steps), 0)
  {
    LeaseRunOneMore(InitialState, [], CreatePending("key"));
    LeaseRunOneMore(InitialState, [] + [CreatePending("key")], Enqueue(0, Pdf(1, true, [])));
    steps := [] + [CreatePending("key")] + [Enqueue(0, Pdf(1, true, []))];
  }

  lemma ClaimedAgain(before: seq<Step>, n: nat) returns (steps: seq<Step>)
    requires ValidUnderLease(InitialState, before) && Valid(InitialState, before)
    requires Orphaned(Run(InitialState, before), n) && n < 3
    ensures ValidUnderLease(InitialState, steps) && Valid(InitialState, steps)
    ensures var s, b := Run(InitialState, steps), Run(InitialState, before);
            s == Apply(b, Claim(0, 0))
  {
    assert OldestClaimable(Run(InitialState, before).t, 0);
    LeaseRunOneMore(InitialState, before, Claim(0, 0));
    steps := before + [Claim(0, 0)];
  }

  lemma ClaimedAndDied(before: seq<Step>, n: nat) returns (steps: seq<Step>)
    requires ValidUnderLease(InitialState, before) && Valid(InitialState, before)
    requires Orphaned(Run(InitialState, before), n) && n < 3
    ensures ValidUnderLease(InitialState, steps) && Valid(InitialState, steps)
    ensures Orphaned(Run(InitialState, steps), n + 1)
  {
    steps := ClaimedAgain(before, n);
    LeaseRunOneMore(InitialState, steps, Crash(0));
    steps := steps + [Crash(0)];
    var s := Run(InitialState, steps);
    var later := s.t.jobs[0].visibleAt + 1.0;
    LeaseRunOneMore(InitialState, steps, Tick(later));
    steps := steps + [Tick(later)];
  }

  /** The only worker is on job 0, in attempt n. */
  ghost predicate OnAttempt(s: State, n: nat, p: Phase) {
    && s.workers.Keys == {0} && InPhase(s, 0, p) && s.workers[0].attempt.job == 0 && s.workers[0].attempt.doc == 0
    && 0 in s.t.jobs && s.t.jobs[0].doc == 0 && s.t.jobs[0].attempts == n && s.t.jobs[0].maxAttempts == 3
    && 0 in s.t.documents && s.t.documents[0].status.InProgress?
  }

  /** The worker's next step, which sends nothing. */
  lemma NextInAttempt(before: seq<Step>, n: nat, p: Phase, step: Step, p': Phase, missingBlob: bool)
    returns (steps: seq<Step>)
    requires ValidUnderLease(InitialState, before) && Valid(InitialState, before)
    requires OnAttempt(Run(InitialState, before), n, p)
    requires || (p == CheckDocument && step == SeeDocument(0) && p' == OpenPdf)
             || (p == OpenPdf && step == Raise(0, missingBlob) && p' == ReadingBudget(missingBlob))
             || (p == ReadingBudget(missingBlob) && step == ReadBudget(0)
                 && p' == RecordingFailure(missingBlob, n, 3))
    ensures ValidUnderLease(InitialState, steps) && Valid(InitialState, steps)
    ensures OnAttempt(Run(InitialState, steps), n, p') && steps == before + [step]
  {
    LeaseRunOneMore(InitialState, before, step);
    steps := before + [step];
  }

  lemma LastAttemptFails(missingBlob: bool) returns (steps: seq<Step>)
    ensures ValidUnderLease(InitialState, steps) && Valid(InitialState, steps)
    ensures OnAttempt(Run(InitialState, steps), 3, RecordingFailure(missingBlob, 3, 3))
  {
    steps := FreshJob();
    steps := ClaimedAndDied(steps, 0);
    steps := ClaimedAndDied(steps, 1);
    steps := ClaimedAgain(steps, 2);
    steps := FailsToOpen(steps, 3, missingBlob);
  }

  lemma FailsToOpen(before: seq<Step>, n: nat, missingBlob: bool) returns (steps: seq<Step>)
    requires ValidUnderLease(InitialState, before) && Valid(InitialState, before)
    requires OnAttempt(Run(InitialState, before), n, CheckDocument)
    ensures ValidUnderLease(InitialState, steps) && Valid(InitialState, steps)
    ensures OnAttempt(Run(InitialState, steps), n, RecordingFailure(missingBlob, n, 3))
    ensures Raise(0, missingBlob) in steps
  {
    steps := NextInAttempt(before, n, CheckDocument, SeeDocument(0), OpenPdf, missingBlob);
    steps := NextInAttempt(steps, n, OpenPdf, Raise(0, missingBlob), ReadingBudget(missingBlob), missingBlob);
    steps := NextInAttempt(steps, n, ReadingBudget(missingBlob), ReadBudget(0),
                           RecordingFailure(missingBlob, n, 3), missingBlob);
  }

  /** The first attempt of job 0 finds its blob missing, and the job is back in the queue. */
  lemma MissingBlobIsRetried() returns (steps: seq<Step>)
    ensures ValidUnderLease(InitialState, steps) && Valid(InitialState, steps) && Raise(0, true) in steps
    ensures var s := Run(InitialState, steps);
            s.workers == map[] && 0 in s.t.jobs && s.t.jobs[0].status.Queued? && s.t.jobs[0].attempts == 1
  {
    steps := FreshJob();
    steps := ClaimedAgain(steps, 0);
    steps := FailsToOpen(steps, 1, true);
    LeaseRunOneMore(InitialState, steps, RecordFail(0));
    steps := steps + [RecordFail(0)];
  }

  /** Nobody is alive, job 0 is dead-lettered, and its document is still in progress. */
  predicate LeftInProgress(s: State) {
    && s.workers.Keys == {} && 0 in s.t.jobs && s.t.jobs[0].doc == 0 && 0 in s.t.documents
    && s.t.jobs[0].status.Failed? && s.t.documents[0].status.InProgress?
  }

  /** A missing blob dead-letters the job on its last attempt but never touches the
      document, which the client then polls as in progress for ever. */
  lemma MissingBlobLeavesDocument() returns (steps: seq<Step>)
    ensures ValidUnderLease(InitialState, steps) && Valid(InitialState, steps)
    ensures LeftInProgress(Run(InitialState, steps))
  {
    steps := LastAttemptFails(true);
    LeaseRunOneMore(InitialState, steps, RecordFail(0));
    steps := steps + [RecordFail(0)];
  }

  /** So does the death of the worker between `fail_job` and `mark_document_failed`. */
  lemma CrashLeavesDocument() returns (steps: seq<Step>)
    ensures ValidUnderLease(InitialState, steps) && Valid(InitialState, steps)
    ensures LeftInProgress(Run(InitialState, steps))
  {
    steps := LastAttemptFails(false);
    LeaseRunOneMore(InitialState, steps, RecordFail(0));
    steps := steps + [RecordFail(0)];
    LeaseRunOneMore(InitialState, steps, Crash(0));
    steps := steps + [Crash(0)];
  }
}
