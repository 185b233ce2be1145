/** What every reachable state of the ingest queue keeps, under the lease assumption. */
module QueueInvariant {
  import opened JobTables
  import opened WorkerSteps

  /** The limits that `process_job` and the chunker enforce. */
  predicate Ingestible(pdf: Pdf) {
    pdf.pageCount <= MAX_PAGE_COUNT && pdf.hasText
  }

  /** The document shows the whole ingest of `pdf`: every chunk once, in order, numbered
      from zero, with the count and the status that say so. */
  predicate FullyIngested(t: Tables, d: DocId, pdf: Pdf) {
    && d in t.documents
    && RowsOf(t, d) == RowsFor(pdf.chunks)
    && t.documents[d].chunkCount == |pdf.chunks|
    && t.documents[d].status.Ready?
    && t.documents[d].stage.AtDone?
    && Ingestible(pdf)
  }

  predicate JobOk(t: Tables, j: JobId)
    requires j in t.jobs
  {
    var job := t.jobs[j];
    && j < t.nextJob
    && job.doc in t.documents
    && t.documents[job.doc].name == job.key
    && 0 < job.maxAttempts
    && job.attempts <= job.maxAttempts
    && (job.status.Queued? ==> job.attempts < job.maxAttempts)
    && (t.documents[job.doc].status.Rejected? ==> job.status.Failed?)
    && (job.status.Done? ==> FullyIngested(t, job.doc, job.pdf))
  }

  ghost predicate JobsOk(t: Tables) {
    && (forall j :: j in t.jobs ==> JobOk(t, j))
    && (forall j, k :: j in t.jobs && k in t.jobs && t.jobs[j].doc == t.jobs[k].doc ==> j == k)
  }

  ghost predicate DocumentsOk(s: State) {
    && s.t.chunks.Keys == s.t.documents.Keys
    && (forall d :: d in s.t.documents ==> d < s.t.nextDoc && s.t.documents[d].name in s.usedKeys)
    && (forall d, e :: d in s.t.documents && e in s.t.documents && s.t.documents[d].name == s.t.documents[e].name
          ==> d == e)
  }

  /** No job belongs to d, except possibly job j. */
  ghost predicate OnlyJobOf(s: State, d: DocId, j: JobId) {
    && d < s.t.nextDoc
    && d !in s.uploads
    && forall k :: k in s.t.jobs && s.t.jobs[k].doc == d ==> k == j
  }

  ghost predicate UploadsOk(s: State) {
    forall d :: d in s.uploads ==>
      && d < s.t.nextDoc
      && (d in s.t.documents ==> s.t.documents[d].status.InProgress?)
      && (forall j :: j in s.t.jobs ==> s.t.jobs[j].doc != d)
  }

  /** The worker's job row, unless deleted, is exactly as its claim left it. */
  predicate HoldsRow(t: Tables, a: Attempt, status: JobStatus) {
    a.job in t.jobs ==>
      && t.jobs[a.job].doc == a.doc
      && t.jobs[a.job].key == a.key
      && t.jobs[a.job].pdf == a.pdf
      && t.jobs[a.job].status == status
      && t.jobs[a.job].attempts == a.number
      && (status.Processing? ==> t.jobs[a.job].visibleAt == a.deadline)
  }

  ghost predicate PhaseOk(s: State, a: Attempt, p: Phase) {
    match p
    case Ingesting(pos, target) =>
      && pos <= |a.pdf.chunks| + 2
      && a.pdf.pageCount <= MAX_PAGE_COUNT
      && (1 <= pos ==> OnlyJobOf(s, target, a.job) && (a.job in s.t.jobs ==> target == a.doc))
      && (2 <= pos && a.job in s.t.jobs ==> RowsOf(s.t, a.doc) == RowsFor(a.pdf.chunks)[..pos - 2])
    case CompletingJob => a.job in s.t.jobs ==> FullyIngested(s.t, a.doc, a.pdf)
    case RecordingFailure(_, attempts, maxAttempts) =>
      a.job in s.t.jobs ==> attempts == s.t.jobs[a.job].attempts && maxAttempts == s.t.jobs[a.job].maxAttempts
    case _ => true
  }

  ghost predicate WorkingOk(s: State, a: Attempt, p: Phase) {
    && a.job < s.t.nextJob
    && a.key in s.usedKeys
    && s.t.now <= a.deadline
    && HoldsRow(s.t, a, if p.RejectingDocument? then Failed else Processing)
    && OnlyJobOf(s, a.doc, a.job)
    && (forall j :: j in s.t.jobs && s.t.jobs[j].key == a.key ==> j == a.job)
    && (forall d :: d in s.uploads && d in s.t.documents ==> s.t.documents[d].name != a.key)
    && PhaseOk(s, a, p)
  }

  /** A document about to be rejected belongs to no job that could still succeed. */
  ghost predicate RejectingOk(s: State, d: DocId) {
    && d < s.t.nextDoc
    && d !in s.uploads
    && forall j :: j in s.t.jobs && s.t.jobs[j].doc == d ==> s.t.jobs[j].status.Failed?
  }

  ghost predicate WorkerOk(s: State, worker: Worker) {
    match worker
    case Working(a, p) => WorkingOk(s, a, p)
    case AboutToReap => true
    case Rejecting(remaining) => forall d :: d in remaining ==> RejectingOk(s, d)
  }

  ghost predicate WorkersOk(s: State) {
    forall w :: w in s.workers ==> WorkerOk(s, s.workers[w])
  }

  predicate OnJob(worker: Worker, j: JobId) {
    worker.Working? && worker.attempt.job == j
  }

  /** Lease exclusion: no two live workers are on one job. */
  ghost predicate Exclusive(s: State) {
    forall v, w, j :: v in s.workers && w in s.workers && OnJob(s.workers[v], j) && OnJob(s.workers[w], j) ==> v == w
  }

  ghost predicate Inv(s: State) {
    DocumentsOk(s) && JobsOk(s.t) && UploadsOk(s) && WorkersOk(s) && Exclusive(s)
  }

  // ----- What a step of one worker leaves alone -----

  /** From s to s', only the row of job j and the row and the chunks of its document d
      may change, and neither their keys nor the job's identity; a document may be new. */
  ghost predicate Touches(s: State, s': State, j: JobId, d: DocId) {
    && s'.uploads == s.uploads && s'.usedKeys == s.usedKeys
    && s'.t.now == s.t.now && s'.t.nextJob == s.t.nextJob && s.t.nextDoc <= s'.t.nextDoc
    && (s'.t == s.t || OnlyJobOf(s, d, j))
    && s'.t.jobs.Keys == s.t.jobs.Keys
    && (forall k :: k in s.t.jobs && k != j ==> s'.t.jobs[k] == s.t.jobs[k])
    && (forall k :: k in s.t.jobs ==> SameJob(s.t.jobs[k], s'.t.jobs[k]))
    && (j in s.t.jobs && s.t.jobs[j].status.Failed? ==> s'.t.jobs[j].status.Failed?)
    && (forall e :: e in s.t.documents ==> e in s'.t.documents)
    && (forall e :: e in s.t.documents && e != d ==> s'.t.documents[e] == s.t.documents[e])
    && (forall e :: e in s'.t.documents && e !in s.t.documents ==> e == s.t.nextDoc)
    && (forall e :: e in s.t.documents && e != d ==> RowsOf(s'.t, e) == RowsOf(s.t, e))
  }

  predicate SameJob(a: Job, b: Job) {
    a.doc == b.doc && a.key == b.key && a.pdf == b.pdf && a.maxAttempts == b.maxAttempts
  }

  lemma TouchKeepsJobs(s: State, s': State, j: JobId, d: DocId)
    requires Inv(s) && Touches(s, s', j, d)
    requires DocumentsOk(s')
    requires j in s.t.jobs ==> JobOk(s'.t, j)
    ensures JobsOk(s'.t)
  {
    forall k | k in s'.t.jobs
      ensures JobOk(s'.t, k)
    {
      assert JobOk(s.t, k);
      assert SameJob(s.t.jobs[k], s'.t.jobs[k]);
    }
    forall k, l | k in s'.t.jobs && l in s'.t.jobs && s'.t.jobs[k].doc == s'.t.jobs[l].doc
      ensures k == l
    {
      assert SameJob(s.t.jobs[k], s'.t.jobs[k]) && SameJob(s.t.jobs[l], s'.t.jobs[l]);
    }
  }

  lemma TouchKeepsOnlyJob(s: State, s': State, j: JobId, d: DocId, e: DocId, k: JobId)
    requires Touches(s, s', j, d) && OnlyJobOf(s, e, k)
    ensures OnlyJobOf(s', e, k)
  {
    forall l | l in s'.t.jobs && s'.t.jobs[l].doc == e
      ensures l == k
    {
      assert SameJob(s.t.jobs[l], s'.t.jobs[l]);
    }
  }

  lemma TouchKeepsWorking(s: State, s': State, j: JobId, d: DocId, a: Attempt, p: Phase)
    requires Inv(s) && Touches(s, s', j, d)
    requires WorkingOk(s, a, p) && a.job != j
    ensures WorkingOk(s', a, p)
  {
    TouchKeepsOnlyJob(s, s', j, d, a.doc, a.job);
    if p.Ingesting? && 1 <= p.pos {
      TouchKeepsOnlyJob(s, s', j, d, p.target, a.job);
    }
    assert a.job in s.t.jobs ==> JobOk(s.t, a.job);
    forall k | k in s'.t.jobs && s'.t.jobs[k].key == a.key
      ensures k == a.job
    {
      assert SameJob(s.t.jobs[k], s'.t.jobs[k]);
    }
    forall e | e in s'.uploads && e in s'.t.documents
      ensures s'.t.documents[e].name != a.key
    {
      assert e in s.uploads && e < s.t.nextDoc;
    }
  }

  lemma TouchKeepsRejecting(s: State, s': State, j: JobId, d: DocId, e: DocId)
    requires Inv(s) && Touches(s, s', j, d) && RejectingOk(s, e)
    ensures RejectingOk(s', e)
  {
    forall l | l in s'.t.jobs && s'.t.jobs[l].doc == e
      ensures s'.t.jobs[l].status.Failed?
    {
      assert SameJob(s.t.jobs[l], s'.t.jobs[l]);
    }
  }

  lemma TouchKeepsUploads(s: State, s': State, j: JobId, d: DocId)
    requires Inv(s) && Touches(s, s', j, d)
    ensures UploadsOk(s')
  {
    forall e | e in s'.uploads
      ensures e < s'.t.nextDoc
      ensures e in s'.t.documents ==> s'.t.documents[e].status.InProgress?
      ensures forall k :: k in s'.t.jobs ==> s'.t.jobs[k].doc != e
    {
      forall k | k in s'.t.jobs ensures s'.t.jobs[k].doc != e {
        assert SameJob(s.t.jobs[k], s'.t.jobs[k]);
      }
    }
  }

  /** Only the acting worker w moved, and it did not change jobs. */
  ghost predicate Moves(s: State, s': State, w: WorkerId, j: JobId) {
    && (forall v :: v in s'.workers && v != w ==> v in s.workers && s'.workers[v] == s.workers[v])
    && (forall v :: v in s.workers && v != w ==> !OnJob(s.workers[v], j))
    && (w in s'.workers && s'.workers[w].Working? ==> s'.workers[w].attempt.job == j)
  }

  lemma TouchKeepsInv(s: State, s': State, w: WorkerId, j: JobId, d: DocId)
    requires Inv(s) && Touches(s, s', j, d) && Moves(s, s', w, j)
    requires DocumentsOk(s')
    requires j in s.t.jobs ==> JobOk(s'.t, j)
    requires w in s'.workers ==> WorkerOk(s', s'.workers[w])
    ensures Inv(s')
  {
    TouchKeepsJobs(s, s', j, d);
    TouchKeepsUploads(s, s', j, d);
    forall v | v in s'.workers
      ensures WorkerOk(s', s'.workers[v])
    {
      if v != w {
        assert v in s.workers && WorkerOk(s, s.workers[v]);
        match s.workers[v] {
          case Working(a, p) =>
            assert !OnJob(s.workers[v], j);
            TouchKeepsWorking(s, s', j, d, a, p);
          case AboutToReap =>
          case Rejecting(remaining) =>
            forall e | e in remaining ensures RejectingOk(s', e) {
              TouchKeepsRejecting(s, s', j, d, e);
            }
        }
      }
    }
    forall u, v, k | u in s'.workers && v in s'.workers && OnJob(s'.workers[u], k) && OnJob(s'.workers[v], k)
      ensures u == v
    {
      if u == w || v == w {
        assert k == j;
      }
    }
  }
}
