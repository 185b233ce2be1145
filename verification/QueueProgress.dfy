/** No job is lost and the queue runs dry: budgets and ranks over whole runs. Modules
    QueueInvariant and QueueSafety need the lease assumption; the statements about
    attempts, claims and overtaking below hold without it. */
module QueueProgress {
  import opened JobTables
  import opened WorkerSteps
  import opened QueueInvariant

  // ----- What holds with no assumption about leases -----

  ghost predicate Counted(s: State) {
    && (forall j :: j in s.t.jobs ==>
          && j < s.t.nextJob
          && s.t.jobs[j].attempts <= s.t.jobs[j].maxAttempts
          && (s.t.jobs[j].attempts == 0 ==> s.t.jobs[j].status.Queued?))
    && (forall w :: w in s.workers && s.workers[w].Working? ==> HeldCount(s.t, s.workers[w].attempt))
  }

  /** A worker's attempt was counted on the row when it was claimed. */
  predicate HeldCount(t: Tables, a: Attempt) {
    && a.job < t.nextJob
    && 1 <= a.number
    && (a.job in t.jobs ==> a.number <= t.jobs[a.job].attempts)
  }

  ghost predicate ClaimsRecorded(s: State) {
    && (forall i :: 0 <= i < |s.claims| ==>
          && s.claims[i].0 < s.t.nextJob
          && (s.claims[i].0 in s.t.jobs ==> s.claims[i].1 <= s.t.jobs[s.claims[i].0].attempts))
    && (forall i, k :: 0 <= i < k < |s.claims| ==> s.claims[i] != s.claims[k])
  }

  /** Every step but a claim and an upload leaves the counters of the surviving jobs. */
  ghost predicate SameCounters(t: Tables, t': Tables) {
    && t'.nextJob == t.nextJob
    && forall j :: j in t'.jobs ==>
         j in t.jobs && t'.jobs[j].attempts == t.jobs[j].attempts && SameJob(t.jobs[j], t'.jobs[j])
         && t'.jobs[j].createdAt == t.jobs[j].createdAt
  }

  lemma CountersKept(s: State, step: Step)
    requires Enabled(s, step) && !step.Claim? && !step.Enqueue?
    ensures SameCounters(s.t, Apply(s, step).t) && Apply(s, step).claims == s.claims
  {
    if WritesAJob(step) {
      SettlingKeepsCounters(s, step);
    } else if step.Send? {
      SendKeepsCounters(s, step);
    }
  }

  predicate WritesAJob(step: Step) {
    step.Delete? || step.Reap? || step.Complete? || step.RecordFail?
  }

  lemma SettlingKeepsCounters(s: State, step: Step)
    requires Enabled(s, step) && WritesAJob(step)
    ensures SameCounters(s.t, Apply(s, step).t) && Apply(s, step).claims == s.claims
  {}

  lemma SendKeepsCounters(s: State, step: Step)
    requires Enabled(s, step) && step.Send?
    ensures SameCounters(s.t, Apply(s, step).t) && Apply(s, step).claims == s.claims
  {}

  lemma AttemptsKept(s: State, step: Step)
    requires Enabled(s, step) && !step.Claim?
    ensures var s' := Apply(s, step);
            forall w :: w in s'.workers && s'.workers[w].Working? ==>
              w in s.workers && s.workers[w].Working? && s.workers[w].attempt == s'.workers[w].attempt
  {}

  /** Only a worker that counted its attempt changes the status of a job. */
  lemma UntouchedStayQueued(s: State, step: Step, j: JobId)
    requires Counted(s) && Enabled(s, step) && !step.Claim? && !step.Enqueue?
    requires j in s.t.jobs && j in Apply(s, step).t.jobs && s.t.jobs[j].attempts == 0
    ensures Apply(s, step).t.jobs[j].status.Queued?
  {
    if WritesAJob(step) {
      SettlingKeepsUntouched(s, step, j);
    } else {
      RowKept(s, step, j);
    }
  }

  lemma SettlingKeepsUntouched(s: State, step: Step, j: JobId)
    requires Counted(s) && Enabled(s, step) && WritesAJob(step)
    requires j in s.t.jobs && j in Apply(s, step).t.jobs && s.t.jobs[j].attempts == 0
    ensures Apply(s, step).t.jobs[j].status.Queued?
  {}

  lemma RowKept(s: State, step: Step, j: JobId)
    requires Enabled(s, step) && !step.Claim? && !step.Enqueue? && !WritesAJob(step) && j in s.t.jobs
    ensures j in Apply(s, step).t.jobs && Apply(s, step).t.jobs[j] == s.t.jobs[j]
  {}

  lemma KeepCounted(s: State, step: Step)
    requires Counted(s) && Enabled(s, step)
    ensures Counted(Apply(s, step))
  {
    var s' := Apply(s, step);
    if !step.Claim? {
      AttemptsKept(s, step);
      if !step.Enqueue? {
        CountersKept(s, step);
        forall j | j in s'.t.jobs && s'.t.jobs[j].attempts == 0 ensures s'.t.jobs[j].status.Queued? {
          UntouchedStayQueued(s, step, j);
        }
      }
    }
  }

  lemma KeepClaimsRecorded(s: State, step: Step)
    requires Counted(s) && ClaimsRecorded(s) && Enabled(s, step)
    ensures ClaimsRecorded(Apply(s, step))
  {
    if !step.Claim? && !step.Enqueue? {
      CountersKept(s, step);
    }
  }

  lemma {:induction false} CountedOverRun(s: State, steps: seq<Step>)
    requires Counted(s) && ClaimsRecorded(s) && Valid(s, steps)
    ensures Counted(Run(s, steps)) && ClaimsRecorded(Run(s, steps))
    decreases |steps|
  {
    if steps == [] {
    } else {
      KeepCounted(s, steps[0]);
      KeepClaimsRecorded(s, steps[0]);
      CountedOverRun(Apply(s, steps[0]), steps[1..]);
    }
  }

  /** Whatever workers do or outlive, no (job, attempt) pair is handed out twice and no
      job is attempted more often than it may be. */
  lemma NoClaimTwice(steps: seq<Step>)
    requires Valid(InitialState, steps)
    ensures var s := Run(InitialState, steps);
            && (forall i, k :: 0 <= i < k < |s.claims| ==> s.claims[i] != s.claims[k])
            && (forall j :: j in s.t.jobs ==> s.t.jobs[j].attempts <= s.t.jobs[j].maxAttempts)
  {
    CountedOverRun(InitialState, steps);
  }

  // ----- Sums over the job table -----

  function Value(t: Tables, f: (JobId, Job) -> nat, j: JobId): nat {
    if j in t.jobs then f(j, t.jobs[j]) else 0
  }

  function Total(t: Tables, f: (JobId, Job) -> nat, n: nat): nat {
    if n == 0 then 0 else Total(t, f, n - 1) + Value(t, f, n - 1)
  }

  lemma {:induction false} TotalFalls(t: Tables, t': Tables, f: (JobId, Job) -> nat, n: nat)
    requires forall j :: 0 <= j < n ==> Value(t', f, j) <= Value(t, f, j)
    ensures Total(t', f, n) <= Total(t, f, n)
  {
    if n <= 0 {
    } else {
      TotalFalls(t, t', f, n - 1);
    }
  }

  lemma {:induction false} TotalFallsAt(t: Tables, t': Tables, f: (JobId, Job) -> nat, n: nat, k: JobId)
    requires k < n
    requires forall j :: 0 <= j < n ==> Value(t', f, j) <= Value(t, f, j)
    requires Value(t', f, k) < Value(t, f, k)
    ensures Total(t', f, n) < Total(t, f, n)
  {
    if k == n - 1 {
      TotalFalls(t, t', f, n - 1);
    } else {
      TotalFallsAt(t, t', f, n - 1, k);
    }
  }

  // ----- Attempts left -----

  function AttemptsLeft(j: JobId, job: Job): nat {
    if job.attempts <= job.maxAttempts then job.maxAttempts - job.attempts else 0
  }

  function Budget(t: Tables): nat {
    Total(t, AttemptsLeft, t.nextJob)
  }

  function Claims(steps: seq<Step>): nat {
    if steps == [] then 0 else (if steps[0].Claim? then 1 else 0) + Claims(steps[1..])
  }

  function Uploads(steps: seq<Step>): nat {
    if steps == [] then 0 else (if steps[0].Enqueue? then 1 else 0) + Uploads(steps[1..])
  }

  lemma StepSpendsBudget(s: State, step: Step)
    requires Counted(s) && Enabled(s, step)
    ensures var t' := Apply(s, step).t;
            Budget(t') + (if step.Claim? then 1 else 0)
            <= Budget(s.t) + (if step.Enqueue? then DEFAULT_MAX_ATTEMPTS else 0)
  {
    var t' := Apply(s, step).t;
    if step.Claim? {
      TotalFallsAt(s.t, t', AttemptsLeft, s.t.nextJob, step.j);
    } else if step.Enqueue? {
      TotalFalls(s.t, t', AttemptsLeft, s.t.nextJob);
    } else {
      CountersKept(s, step);
      TotalFalls(s.t, t', AttemptsLeft, s.t.nextJob);
    }
  }

  /** Every claim spends one attempt of some job and nothing gives attempts back, so a run
      claims at most what its jobs had left plus what its uploads brought. */
  lemma {:induction false} ClaimsBounded(s: State, steps: seq<Step>)
    requires Counted(s) && Valid(s, steps)
    ensures Claims(steps) + Budget(Run(s, steps).t) <= Budget(s.t) + DEFAULT_MAX_ATTEMPTS * Uploads(steps)
    decreases |steps|
  {
    if steps == [] {
    } else {
      StepSpendsBudget(s, steps[0]);
      KeepCounted(s, steps[0]);
      ClaimsBounded(Apply(s, steps[0]), steps[1..]);
    }
  }

  // ----- Bounded bypass -----

  /** Attempts left of the other jobs that were created no later than `created`. */
  function OlderAttemptsLeft(j: JobId, created: real): (JobId, Job) -> nat {
    (k: JobId, job: Job) => if k != j && job.createdAt <= created then AttemptsLeft(k, job) else 0
  }

  function OlderBudget(t: Tables, j: JobId, created: real): nat {
    Total(t, OlderAttemptsLeft(j, created), t.nextJob)
  }

  /** Job j exists and waits for its first claim all along. */
  ghost predicate Waits(s: State, steps: seq<Step>, j: JobId)
    requires Valid(s, steps)
    decreases |steps|
  {
    && j in s.t.jobs
    && s.t.jobs[j].attempts == 0
    && (steps != [] ==> Waits(Apply(s, steps[0]), steps[1..], j))
  }

  /** Uploads enqueued no later than `created`. */
  ghost function UploadsBy(s: State, steps: seq<Step>, created: real): nat
    requires Valid(s, steps)
    decreases |steps|
  {
    if steps == [] then 0
    else (if steps[0].Enqueue? && s.t.now <= created then 1 else 0) + UploadsBy(Apply(s, steps[0]), steps[1..], created)
  }

  /** No younger job overtakes one that waits for its first claim. */
  lemma NoOvertaking(s: State, step: Step, j: JobId)
    requires Counted(s) && Enabled(s, step) && step.Claim?
    requires j in s.t.jobs && s.t.jobs[j].attempts == 0 && 0 < s.t.jobs[j].maxAttempts
    ensures s.t.jobs[step.j].createdAt <= s.t.jobs[j].createdAt
  {
    assert Claimable(s.t, j);
  }

  lemma StepSpendsOlderBudget(s: State, step: Step, j: JobId)
    requires Counted(s) && Enabled(s, step)
    requires j in s.t.jobs && s.t.jobs[j].attempts == 0 && 0 < s.t.jobs[j].maxAttempts
    requires step.Claim? ==> step.j != j
    ensures var t', created := Apply(s, step).t, s.t.jobs[j].createdAt;
            OlderBudget(t', j, created) + (if step.Claim? then 1 else 0)
            <= OlderBudget(s.t, j, created) + (if step.Enqueue? && s.t.now <= created then DEFAULT_MAX_ATTEMPTS else 0)
  {
    var t', f := Apply(s, step).t, OlderAttemptsLeft(j, s.t.jobs[j].createdAt);
    if step.Claim? {
      NoOvertaking(s, step, j);
      TotalFallsAt(s.t, t', f, s.t.nextJob, step.j);
    } else if step.Enqueue? {
      TotalFalls(s.t, t', f, s.t.nextJob);
    } else {
      CountersKept(s, step);
      TotalFalls(s.t, t', f, s.t.nextJob);
    }
  }

  /** While job j waits for its first claim, at most the remaining attempts of the jobs as
      old as it are claimed; uploads after the instant of its creation add nothing. */
  lemma {:induction false} BoundedBypass(s: State, steps: seq<Step>, j: JobId)
    requires Counted(s) && Valid(s, steps) && Waits(s, steps, j)
    requires 0 < s.t.jobs[j].maxAttempts
    ensures var created := s.t.jobs[j].createdAt;
            Claims(steps) <= OlderBudget(s.t, j, created) + DEFAULT_MAX_ATTEMPTS * UploadsBy(s, steps, created)
    decreases |steps|
  {
    if steps == [] {
    } else {
      var s' := Apply(s, steps[0]);
      assert Waits(s', steps[1..], j);
      assert steps[0].Claim? ==> steps[0].j != j;
      if !steps[0].Claim? && !steps[0].Enqueue? {
        CountersKept(s, steps[0]);
      }
      StepSpendsOlderBudget(s, steps[0], j);
      KeepCounted(s, steps[0]);
      BoundedBypass(s', steps[1..], j);
    }
  }
}
