/** Under the lease assumption the queue terminates: a rank over all jobs falls at every
    claim, requeue, completion and dead-lettering; and an unfinished job that nobody
    holds can be taken up or dead-lettered as soon as its visibility lapses. */
module QueueTermination {
  import opened JobTables
  import opened WorkerSteps
  import opened QueueInvariant
  import opened QueueSafety
  import opened QueueProgress

  predicate Finished(job: Job) {
    job.status.Done? || job.status.Failed?
  }

  function Rank(j: JobId, job: Job): nat {
    if Finished(job) then 0 else 2 * AttemptsLeft(j, job) + (if job.status.Processing? then 1 else 0)
  }

  function TotalRank(t: Tables): nat {
    Total(t, Rank, t.nextJob)
  }

  /** The steps that settle or hand out a job: a claim, a requeue, a completion, a
      dead-lettering by the worker, and a reaping that finds something. */
  predicate MovesAJob(s: State, step: Step) {
    match step
    case Claim(_, _) => true
    case Complete(w) => IsWorking(s, w) && AttemptOf(s, w).job in s.t.jobs
    case RecordFail(w) => IsWorking(s, w) && AttemptOf(s, w).job in s.t.jobs
    case Reap(_) => exists j :: j in s.t.jobs && Reapable(s.t, j)
    case _ => false
  }

  lemma JobNumbersBelow(s: State)
    requires Inv(s)
    ensures forall j :: j in s.t.jobs ==> j < s.t.nextJob && s.t.jobs[j].attempts <= s.t.jobs[j].maxAttempts
  {
    forall j | j in s.t.jobs ensures j < s.t.nextJob && s.t.jobs[j].attempts <= s.t.jobs[j].maxAttempts {
      assert JobOk(s.t, j);
    }
  }

  lemma ClaimLowersRank(s: State, step: Step)
    requires Inv(s) && Enabled(s, step) && step.Claim?
    ensures TotalRank(Apply(s, step).t) < TotalRank(s.t)
  {
    JobNumbersBelow(s);
    TotalFallsAt(s.t, Apply(s, step).t, Rank, s.t.nextJob, step.j);
  }

  lemma SettlingLowersRank(s: State, step: Step)
    requires Inv(s) && Enabled(s, step) && MovesAJob(s, step) && (step.Complete? || step.RecordFail?)
    ensures TotalRank(Apply(s, step).t) < TotalRank(s.t)
  {
    JobNumbersBelow(s);
    WorkingHere(s, step.w);
    var j := AttemptOf(s, step.w).job;
    TotalFallsAt(s.t, Apply(s, step).t, Rank, s.t.nextJob, j);
  }

  lemma ReapingLowersRank(s: State, step: Step)
    requires Inv(s) && Enabled(s, step) && MovesAJob(s, step) && step.Reap?
    ensures TotalRank(Apply(s, step).t) < TotalRank(s.t)
  {
    JobNumbersBelow(s);
    ReapedRanksLess(s.t);
    assert Apply(s, step).t == ReapExhausted(s.t);
  }

  lemma ReapedRanksLess(t: Tables)
    requires forall j :: j in t.jobs ==> j < t.nextJob && t.jobs[j].attempts <= t.jobs[j].maxAttempts
    requires exists j :: j in t.jobs && Reapable(t, j)
    ensures TotalRank(ReapExhausted(t)) < TotalRank(t)
  {
    var j :| j in t.jobs && Reapable(t, j);
    TotalFallsAt(t, ReapExhausted(t), Rank, t.nextJob, j);
  }

  lemma OthersKeepJobs(s: State, step: Step)
    requires Enabled(s, step) && !MovesAJob(s, step) && !step.Enqueue?
    ensures var t' := Apply(s, step).t;
            t'.nextJob == s.t.nextJob && forall j :: j in t'.jobs ==> j in s.t.jobs && t'.jobs[j] == s.t.jobs[j]
  {}

  /** An upload brings rank 6; every other step lowers the rank or leaves it, and the
      steps that move a job lower it. */
  lemma StepRank(s: State, step: Step)
    requires Inv(s) && Enabled(s, step)
    ensures var t' := Apply(s, step).t;
            TotalRank(t') + (if MovesAJob(s, step) then 1 else 0)
            <= TotalRank(s.t) + (if step.Enqueue? then 2 * DEFAULT_MAX_ATTEMPTS else 0)
  {
    if MovesAJob(s, step) {
      if step.Claim? { ClaimLowersRank(s, step); }
      else if step.Reap? { ReapingLowersRank(s, step); }
      else { SettlingLowersRank(s, step); }
    } else {
      JobNumbersBelow(s);
      if !step.Enqueue? { OthersKeepJobs(s, step); }
      TotalFalls(s.t, Apply(s, step).t, Rank, s.t.nextJob);
    }
  }

  ghost function CountMoves(s: State, steps: seq<Step>): nat
    requires Valid(s, steps)
    decreases |steps|
  {
    if steps == [] then 0
    else (if MovesAJob(s, steps[0]) then 1 else 0) + CountMoves(Apply(s, steps[0]), steps[1..])
  }

  /** A run in which only finitely many documents are uploaded can claim, requeue,
      complete and dead-letter only finitely often: the bound is the rank. */
  lemma {:induction false} QueueRunsDry(s: State, steps: seq<Step>)
    requires Inv(s) && ValidUnderLease(s, steps)
    ensures Valid(s, steps)
    ensures CountMoves(s, steps) + TotalRank(Run(s, steps).t)
            <= TotalRank(s.t) + 2 * DEFAULT_MAX_ATTEMPTS * Uploads(steps)
    decreases |steps|
  {
    LeaseRunIsRun(s, steps);
    if steps == [] {
    } else {
      StepRank(s, steps[0]);
      KeepInv(s, steps[0]);
      QueueRunsDry(Apply(s, steps[0]), steps[1..]);
    }
  }

  // ----- No job is lost -----

  /** The deadline of an unfinished job has passed, or it waits in the queue. */
  predicate Lapsed(t: Tables, j: JobId)
    requires j in t.jobs
  {
    t.jobs[j].status.Queued? || t.jobs[j].visibleAt < t.now
  }

  /** A job that lapsed is never stuck: it is claimable or reapable, and no live worker
      is still on it. */
  lemma LapsedIsTakenUp(steps: seq<Step>, j: JobId)
    requires ValidUnderLease(InitialState, steps)
    ensures Valid(InitialState, steps)
    ensures var s := Run(InitialState, steps);
            j in s.t.jobs && !Finished(s.t.jobs[j]) && Lapsed(s.t, j) ==>
              && (Claimable(s.t, j) || Reapable(s.t, j))
              && (forall w :: w in s.workers ==> !OnJob(s.workers[w], j))
  {
    InvOverRun(InitialState, steps);
    var s := Run(InitialState, steps);
    if j in s.t.jobs && !Finished(s.t.jobs[j]) && Lapsed(s.t, j) {
      assert JobOk(s.t, j);
      forall w | w in s.workers ensures !OnJob(s.workers[w], j) {
        assert WorkerOk(s, s.workers[w]);
      }
    }
  }

  /** One poll by an idle worker either claims a job, or finds none and reaps, after which
      every lapsed job is finished. */
  lemma PollMakesProgress(s: State, w: WorkerId)
    requires Inv(s) && w !in s.workers
    ensures (exists j :: Enabled(s, Claim(w, j))) ||
            (Enabled(s, FindNothing(w)) && Enabled(Apply(s, FindNothing(w)), Reap(w)) &&
             var t' := Apply(Apply(s, FindNothing(w)), Reap(w)).t;
             forall j :: j in s.t.jobs && Lapsed(s.t, j) ==> j in t'.jobs && Finished(t'.jobs[j]))
  {
    var claimable := set j | j in s.t.jobs && Claimable(s.t, j);
    if claimable == {} {
      forall j | j in s.t.jobs ensures !Claimable(s.t, j) && JobOk(s.t, j) {
        assert j !in claimable;
      }
    } else {
      var j := OldestAmong(s.t, claimable);
      assert Enabled(s, Claim(w, j));
    }
  }
}
