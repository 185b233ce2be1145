/** The invariant of the ingest queue holds over every run under the lease assumption,
    and what follows from it. */
module QueueSafety {
  import opened JobTables
  import opened WorkerSteps
  import opened QueueInvariant

  lemma WorkingHere(s: State, w: WorkerId)
    requires Inv(s) && IsWorking(s, w)
    ensures WorkingOk(s, AttemptOf(s, w), s.workers[w].phase)
    ensures forall v :: v in s.workers && v != w ==> !OnJob(s.workers[v], AttemptOf(s, w).job)
  {
    assert WorkerOk(s, s.workers[w]);
    assert OnJob(s.workers[w], AttemptOf(s, w).job);
  }

  /** A step of w that sends no statement. */
  lemma KeepLocal(s: State, s': State, w: WorkerId, j: JobId)
    requires Inv(s) && s' == s.(workers := s'.workers) && Moves(s, s', w, j)
    requires w in s'.workers ==> WorkerOk(s', s'.workers[w])
    ensures Inv(s')
  {
    assert j in s.t.jobs ==> JobOk(s.t, j);
    TouchKeepsInv(s, s', w, j, 0);
  }

  lemma KeepIdle(s: State, step: Step)
    requires Inv(s) && Enabled(s, step) && (step.FindNothing? || step.Crash?)
    ensures Inv(Apply(s, step))
  {
    // No job has the number nextJob, so nobody is on it.
    forall v | v in s.workers ensures !OnJob(s.workers[v], s.t.nextJob) {
      assert WorkerOk(s, s.workers[v]);
    }
    KeepLocal(s, Apply(s, step), step.w, s.t.nextJob);
  }

  lemma KeepControl(s: State, step: Step)
    requires Inv(s) && Enabled(s, step) && (step.SeeDocument? || step.Open? || step.Raise? || step.ReadBudget?)
    ensures Inv(Apply(s, step))
  {
    WorkingHere(s, step.w);
    KeepLocal(s, Apply(s, step), step.w, AttemptOf(s, step.w).job);
  }

  lemma DocumentWriteTouches(s: State, s': State, j: JobId, d: DocId, doc: Document)
    requires DocumentsOk(s) && OnlyJobOf(s, d, j)
    requires d in s.t.documents && doc.name == s.t.documents[d].name
    requires s'.t == s.t.(documents := s.t.documents[d := doc]) && s'.uploads == s.uploads && s'.usedKeys == s.usedKeys
    ensures Touches(s, s', j, d) && DocumentsOk(s')
  {}

  lemma JobWriteTouches(s: State, s': State, j: JobId, d: DocId, job: Job)
    requires DocumentsOk(s) && OnlyJobOf(s, d, j)
    requires j in s.t.jobs && SameJob(s.t.jobs[j], job) && (s.t.jobs[j].status.Failed? ==> job.status.Failed?)
    requires s'.t == s.t.(jobs := s.t.jobs[j := job]) && s'.uploads == s.uploads && s'.usedKeys == s.usedKeys
    ensures Touches(s, s', j, d) && DocumentsOk(s')
  {}

  /** A write of w to the row of its document. */
  lemma KeepDocumentWrite(s: State, s': State, w: WorkerId, a: Attempt, doc: Document)
    requires Inv(s) && IsWorking(s, w) && a == AttemptOf(s, w)
    requires a.doc in s.t.documents && doc.name == s.t.documents[a.doc].name
    requires s' == s.(workers := s'.workers, t := s.t.(documents := s.t.documents[a.doc := doc]))
    requires Moves(s, s', w, a.job)
    requires a.job in s.t.jobs ==> JobOk(s'.t, a.job)
    requires w in s'.workers ==> WorkerOk(s', s'.workers[w])
    ensures Inv(s')
  {
    WorkingHere(s, w);
    DocumentWriteTouches(s, s', a.job, a.doc, doc);
    TouchKeepsInv(s, s', w, a.job, a.doc);
  }

  /** A write of w to the row of its job. */
  lemma KeepJobWrite(s: State, s': State, w: WorkerId, a: Attempt, job: Job)
    requires Inv(s) && IsWorking(s, w) && a == AttemptOf(s, w)
    requires a.job in s.t.jobs && SameJob(s.t.jobs[a.job], job)
    requires s.t.jobs[a.job].status.Failed? ==> job.status.Failed?
    requires s' == s.(workers := s'.workers, t := s.t.(jobs := s.t.jobs[a.job := job]))
    requires Moves(s, s', w, a.job)
    requires JobOk(s'.t, a.job)
    requires w in s'.workers ==> WorkerOk(s', s'.workers[w])
    ensures Inv(s')
  {
    WorkingHere(s, w);
    JobWriteTouches(s, s', a.job, a.doc, job);
    TouchKeepsInv(s, s', w, a.job, a.doc);
  }

  lemma KeepProgress(s: State, step: Step)
    requires Inv(s) && Enabled(s, step) && step.Progress?
    ensures Inv(Apply(s, step))
  {
    var a, s' := AttemptOf(s, step.w), Apply(s, step);
    WorkingHere(s, step.w);
    if a.doc in s.t.documents {
      assert a.job in s.t.jobs ==> JobOk(s.t, a.job);
      assert WorkingOk(s', a, s.workers[step.w].phase);
      KeepDocumentWrite(s, s', step.w, a, s.t.documents[a.doc].(stage := step.stage));
    }
  }

  lemma KeepFinishIngest(s: State, step: Step)
    requires Inv(s) && Enabled(s, step) && step.FinishIngest?
    ensures Inv(Apply(s, step))
  {
    var a, s' := AttemptOf(s, step.w), Apply(s, step);
    WorkingHere(s, step.w);
    assert a.job in s.t.jobs ==> JobOk(s.t, a.job);
    if a.doc in s.t.documents {
      ReadyIsSound(s, s', a, s.workers[step.w].phase.target);
      KeepDocumentWrite(s, s', step.w, a, s'.t.documents[a.doc]);
    } else {
      GoneIsSound(s, a, s.workers[step.w].phase.target);
      KeepLocal(s, s', step.w, a.job);
    }
  }

  /** The document that an ingest leaves ready is fully ingested. */
  lemma ReadyIsSound(s: State, s': State, a: Attempt, target: DocId)
    requires WorkingOk(s, a, Ingesting(|a.pdf.chunks| + 2, target)) && a.doc in s.t.documents && a.pdf.hasText
    requires a.job in s.t.jobs ==> JobOk(s.t, a.job)
    requires s'.t == MarkDocumentReady(s.t, a.doc, |a.pdf.chunks|)
    requires s'.uploads == s.uploads && s'.usedKeys == s.usedKeys
    ensures WorkingOk(s', a, CompletingJob)
    ensures a.job in s.t.jobs ==> JobOk(s'.t, a.job)
  {
    assert RowsFor(a.pdf.chunks)[..|a.pdf.chunks|] == RowsFor(a.pdf.chunks);
  }

  /** If the document is gone, so is the job. */
  lemma GoneIsSound(s: State, a: Attempt, target: DocId)
    requires WorkingOk(s, a, Ingesting(|a.pdf.chunks| + 2, target)) && a.doc !in s.t.documents
    requires a.job in s.t.jobs ==> JobOk(s.t, a.job)
    ensures WorkingOk(s, a, CompletingJob)
  {}

  lemma KeepReject(s: State, step: Step)
    requires Inv(s) && Enabled(s, step) && step.Reject?
    ensures Inv(Apply(s, step))
  {
    var a, s' := AttemptOf(s, step.w), Apply(s, step);
    WorkingHere(s, step.w);
    assert a.job in s.t.jobs ==> JobOk(s.t, a.job);
    if a.doc in s.t.documents {
      KeepDocumentWrite(s, s', step.w, a, s'.t.documents[a.doc]);
    } else {
      KeepLocal(s, s', step.w, a.job);
    }
  }

  lemma KeepComplete(s: State, step: Step)
    requires Inv(s) && Enabled(s, step) && step.Complete?
    ensures Inv(Apply(s, step))
  {
    var a, s' := AttemptOf(s, step.w), Apply(s, step);
    WorkingHere(s, step.w);
    if a.job in s.t.jobs {
      assert JobOk(s.t, a.job);
      KeepJobWrite(s, s', step.w, a, s'.t.jobs[a.job]);
    } else {
      KeepLocal(s, s', step.w, a.job);
    }
  }

  /** The row that `fail_job` leaves is sound. */
  lemma FailureIsSound(s: State, a: Attempt, p: Phase)
    requires JobsOk(s.t) && WorkingOk(s, a, p) && p.RecordingFailure? && a.job in s.t.jobs
    ensures var t' := RecordFailure(s.t, a.job, p.attempts, p.maxAttempts);
            && JobOk(t', a.job)
            && SameJob(s.t.jobs[a.job], t'.jobs[a.job])
            && t' == s.t.(jobs := s.t.jobs[a.job := t'.jobs[a.job]])
            && (p.maxAttempts <= p.attempts ==> t'.jobs[a.job].status.Failed?)
  {
    assert JobOk(s.t, a.job);
  }

  /** The worker that dead-lettered its job may go on to reject the document. */
  lemma DeadLetterIsSound(s: State, s': State, a: Attempt, p: Phase)
    requires DocumentsOk(s) && WorkingOk(s, a, p) && a.job in s.t.jobs && !p.RejectingDocument?
    requires s'.t == s.t.(jobs := s.t.jobs[a.job := s.t.jobs[a.job].(status := Failed)])
    requires s'.uploads == s.uploads && s'.usedKeys == s.usedKeys
    ensures WorkingOk(s', a, RejectingDocument)
  {
    JobWriteTouches(s, s', a.job, a.doc, s'.t.jobs[a.job]);
    TouchKeepsOnlyJob(s, s', a.job, a.doc, a.doc, a.job);
  }

  lemma AfterFailureIsSound(s: State, s': State, w: WorkerId)
    requires DocumentsOk(s) && Enabled(s, RecordFail(w)) && s' == Apply(s, RecordFail(w))
    requires WorkerOk(s, s.workers[w]) && AttemptOf(s, w).job in s.t.jobs
    ensures w in s'.workers ==> WorkerOk(s', s'.workers[w])
  {
    if w in s'.workers {
      DeadLetterIsSound(s, s', AttemptOf(s, w), s.workers[w].phase);
      assert s'.workers[w] == Working(AttemptOf(s, w), RejectingDocument);
    }
  }

  lemma FailureMoves(s: State, w: WorkerId)
    requires Enabled(s, RecordFail(w))
    requires forall v :: v in s.workers && v != w ==> !OnJob(s.workers[v], AttemptOf(s, w).job)
    ensures Moves(s, Apply(s, RecordFail(w)), w, AttemptOf(s, w).job)
  {}

  lemma KeepRecordFail(s: State, step: Step)
    requires Inv(s) && Enabled(s, step) && step.RecordFail?
    ensures Inv(Apply(s, step))
  {
    var w := step.w;
    var a, p, s' := AttemptOf(s, w), s.workers[w].phase, Apply(s, step);
    WorkingHere(s, w);
    FailureMoves(s, w);
    if a.job in s.t.jobs {
      FailureIsSound(s, a, p);
      AfterFailureIsSound(s, s', w);
      KeepJobWrite(s, s', w, a, s'.t.jobs[a.job]);
    } else {
      KeepLocal(s, s', w, a.job);
    }
  }

  lemma ClaimIsExclusive(s: State, j: JobId)
    requires Inv(s) && Claimable(s.t, j)
    ensures forall v :: v in s.workers ==> !OnJob(s.workers[v], j)
  {
    // A claimable row is queued or past its deadline; a live holder's row is neither.
    forall v | v in s.workers ensures !OnJob(s.workers[v], j) {
      assert WorkerOk(s, s.workers[v]);
    }
  }

  lemma JobOwnsItsDocument(s: State, j: JobId)
    requires Inv(s) && j in s.t.jobs
    ensures OnlyJobOf(s, s.t.jobs[j].doc, j)
    ensures forall k :: k in s.t.jobs && s.t.jobs[k].key == s.t.jobs[j].key ==> k == j
    ensures forall d :: d in s.uploads && d in s.t.documents ==> s.t.documents[d].name != s.t.jobs[j].key
  {
    assert JobOk(s.t, j);
    forall k | k in s.t.jobs && s.t.jobs[k].key == s.t.jobs[j].key ensures k == j {
      assert JobOk(s.t, k);
      assert s.t.documents[s.t.jobs[k].doc].name == s.t.documents[s.t.jobs[j].doc].name;
    }
  }

  lemma KeepClaim(s: State, step: Step)
    requires Inv(s) && Enabled(s, step) && step.Claim?
    ensures Inv(Apply(s, step))
  {
    var w, j, s' := step.w, step.j, Apply(s, step);
    var d := s.t.jobs[j].doc;
    assert JobOk(s.t, j);
    ClaimIsExclusive(s, j);
    JobOwnsItsDocument(s, j);
    JobWriteTouches(s, s', j, d, s'.t.jobs[j]);
    TouchKeepsOnlyJob(s, s', j, d, d, j);
    assert WorkingOk(s', s'.workers[w].attempt, CheckDocument);
    TouchKeepsInv(s, s', w, j, d);
  }

  /** Rejecting a document disturbs no live attempt: its job, if any, is failed already. */
  lemma RejectKeepsWorker(s: State, s': State, d: DocId, worker: Worker)
    requires Inv(s) && RejectingOk(s, d) && WorkerOk(s, worker)
    requires s' == s.(workers := s'.workers, t := MarkDocumentFailed(s.t, d))
    ensures WorkerOk(s', worker)
  {
    if worker.Working? {
      assert OnlyJobOf(s', worker.attempt.doc, worker.attempt.job);
    }
  }

  lemma RejectKeepsTables(s: State, s': State, d: DocId)
    requires Inv(s) && RejectingOk(s, d)
    requires s' == s.(workers := s'.workers, t := MarkDocumentFailed(s.t, d))
    ensures DocumentsOk(s') && JobsOk(s'.t) && UploadsOk(s')
  {
    forall j | j in s'.t.jobs ensures JobOk(s'.t, j) {
      assert JobOk(s.t, j);
    }
  }

  lemma KeepRejectReaped(s: State, step: Step)
    requires Inv(s) && Enabled(s, step) && step.RejectReaped?
    ensures Inv(Apply(s, step))
  {
    var w, d, s' := step.w, step.d, Apply(s, step);
    assert WorkerOk(s, s.workers[w]) && RejectingOk(s, d);
    RejectKeepsTables(s, s', d);
    forall v | v in s'.workers ensures WorkerOk(s', s'.workers[v]) {
      RejectKeepsWorker(s, s', d, s.workers[v]);
      if v == w { RejectKeepsWorker(s, s', d, s'.workers[v]); }
    }
  }

  // ----- The statements of an ingest -----

  /** The upsert finds the job's own document, or, when that was deleted, makes one that
      no job owns. */
  lemma UpsertTargetIsOwn(s: State, a: Attempt, p: Phase)
    requires Inv(s) && WorkingOk(s, a, p)
    ensures NameTaken(s.t, a.key) ==> OnlyJobOf(s, UpsertTarget(s.t, a.key), a.job)
    ensures a.job in s.t.jobs ==> NameTaken(s.t, a.key) && UpsertTarget(s.t, a.key) == a.doc
  {
    if a.job in s.t.jobs {
      assert JobOk(s.t, a.job) && HasName(s.t, a.doc, a.key);
    }
    if NameTaken(s.t, a.key) {
      var d := UpsertTarget(s.t, a.key);
      forall k | k in s.t.jobs && s.t.jobs[k].doc == d ensures k == a.job {
        assert JobOk(s.t, k);
      }
    }
  }

  lemma KeepUpsert(s: State, step: Step)
    requires Inv(s) && Enabled(s, step) && step.Send? && s.workers[step.w].phase.pos == 0
    ensures Inv(Apply(s, step))
  {
    var w := step.w;
    var a, p, s' := AttemptOf(s, w), s.workers[w].phase, Apply(s, step);
    WorkingHere(s, w);
    UpsertTargetIsOwn(s, a, p);
    var d := UpsertTarget(s.t, a.key);
    assert NextStatement(a, p) == UpsertDocument(a.key, a.pdf.pageCount);
    assert a.job in s.t.jobs ==> JobOk(s.t, a.job);
    var e := if NameTaken(s.t, a.key) then d else a.doc;
    UpsertTouches(s, s', a);
    TouchKeepsOnlyJob(s, s', a.job, e, a.doc, a.job);
    UpsertedTarget(s, s', a);
    assert WorkingOk(s', a, Ingesting(1, d));
    TouchKeepsInv(s, s', w, a.job, e);
  }

  lemma UpsertTouches(s: State, s': State, a: Attempt)
    requires DocumentsOk(s) && a.key in s.usedKeys && OnlyJobOf(s, a.doc, a.job)
    requires NameTaken(s.t, a.key) ==> OnlyJobOf(s, UpsertTarget(s.t, a.key), a.job)
    requires s'.t == Upsert(s.t, a.key, a.pdf.pageCount) && s'.uploads == s.uploads && s'.usedKeys == s.usedKeys
    ensures DocumentsOk(s')
    ensures Touches(s, s', a.job, if NameTaken(s.t, a.key) then UpsertTarget(s.t, a.key) else a.doc)
  {
    var d := UpsertTarget(s.t, a.key);
    if NameTaken(s.t, a.key) {
      DocumentWriteTouches(s, s', a.job, d, s.t.documents[d].(pageCount := a.pdf.pageCount));
    } else {
      forall e | e in s.t.documents ensures s.t.documents[e].name != a.key {
        assert !HasName(s.t, e, a.key);
      }
      FreshDocumentTouches(s, s', a.job, a.doc, Document(a.key, Ready, NoStage, a.pdf.pageCount, 0));
    }
  }

  lemma FreshDocumentTouches(s: State, s': State, j: JobId, d: DocId, doc: Document)
    requires DocumentsOk(s) && OnlyJobOf(s, d, j) && doc.name in s.usedKeys
    requires forall e :: e in s.t.documents ==> s.t.documents[e].name != doc.name
    requires s'.t == s.t.(documents := s.t.documents[s.t.nextDoc := doc],
                          chunks := s.t.chunks[s.t.nextDoc := []], nextDoc := s.t.nextDoc + 1)
    requires s'.uploads == s.uploads && s'.usedKeys == s.usedKeys
    ensures Touches(s, s', j, d) && DocumentsOk(s')
  {
    FreshDocumentIsOk(s, s', doc);
    FreshRowTouches(s, s', j, d, doc);
  }

  lemma FreshRowTouches(s: State, s': State, j: JobId, d: DocId, doc: Document)
    requires OnlyJobOf(s, d, j) && s.t.nextDoc !in s.t.documents
    requires s'.t == s.t.(documents := s.t.documents[s.t.nextDoc := doc],
                          chunks := s.t.chunks[s.t.nextDoc := []], nextDoc := s.t.nextDoc + 1)
    requires s'.uploads == s.uploads && s'.usedKeys == s.usedKeys
    ensures Touches(s, s', j, d)
  {}

  lemma FreshDocumentIsOk(s: State, s': State, doc: Document)
    requires DocumentsOk(s) && doc.name in s.usedKeys && s'.usedKeys == s.usedKeys
    requires forall e :: e in s.t.documents ==> s.t.documents[e].name != doc.name
    requires s'.t.documents == s.t.documents[s.t.nextDoc := doc] && s'.t.nextDoc == s.t.nextDoc + 1
    requires s'.t.chunks == s.t.chunks[s.t.nextDoc := []]
    ensures DocumentsOk(s')
  {}

  lemma UpsertedTarget(s: State, s': State, a: Attempt)
    requires DocumentsOk(s) && JobsOk(s.t) && UploadsOk(s)
    requires NameTaken(s.t, a.key) ==> OnlyJobOf(s, UpsertTarget(s.t, a.key), a.job)
    requires s'.t == Upsert(s.t, a.key, a.pdf.pageCount) && s'.uploads == s.uploads
    ensures OnlyJobOf(s', UpsertTarget(s.t, a.key), a.job)
  {
    forall k | k in s'.t.jobs && s'.t.jobs[k].doc == UpsertTarget(s.t, a.key) ensures k == a.job {
      assert JobOk(s.t, k);
    }
  }

  lemma RowsWriteTouches(s: State, s': State, j: JobId, d: DocId, rows: seq<Row>)
    requires DocumentsOk(s) && OnlyJobOf(s, d, j) && d in s.t.chunks
    requires s'.t == s.t.(chunks := s.t.chunks[d := rows]) && s'.uploads == s.uploads && s'.usedKeys == s.usedKeys
    ensures Touches(s, s', j, d) && DocumentsOk(s')
  {}

  lemma KeepRowsWrite(s: State, s': State, w: WorkerId, a: Attempt, p: Phase, rows: seq<Row>)
    requires Inv(s) && IsWorking(s, w) && s.workers[w] == Working(a, p)
    requires p.Ingesting? && 1 <= p.pos < |a.pdf.chunks| + 2
    requires s' == s.(workers := s.workers[w := Working(a, Ingesting(p.pos + 1, p.target))],
                      t := s.t.(chunks := s.t.chunks[p.target := rows]))
    requires p.target in s.t.chunks
    requires a.job in s.t.jobs ==> rows == RowsFor(a.pdf.chunks)[..p.pos - 1]
    ensures Inv(s')
  {
    WorkingHere(s, w);
    assert a.job in s.t.jobs ==> JobOk(s.t, a.job);
    RowsWriteTouches(s, s', a.job, p.target, rows);
    TouchKeepsOnlyJob(s, s', a.job, p.target, a.doc, a.job);
    TouchKeepsOnlyJob(s, s', a.job, p.target, p.target, a.job);
    assert WorkingOk(s', a, Ingesting(p.pos + 1, p.target));
    TouchKeepsInv(s, s', w, a.job, p.target);
  }

  lemma KeepDeleteRows(s: State, step: Step)
    requires Inv(s) && Enabled(s, step) && step.Send? && s.workers[step.w].phase.pos == 1
    ensures Inv(Apply(s, step))
  {
    var w := step.w;
    var a, p, s' := AttemptOf(s, w), s.workers[w].phase, Apply(s, step);
    WorkingHere(s, w);
    assert a.job in s.t.jobs ==> JobOk(s.t, a.job);
    assert NextStatement(a, p) == DeleteChunks(p.target);
    if p.target in s.t.chunks {
      KeepRowsWrite(s, s', w, a, p, []);
    } else {
      KeepLocal(s, s', w, a.job);
    }
  }

  lemma KeepInsertRow(s: State, step: Step)
    requires Inv(s) && Enabled(s, step) && step.Send? && s.workers[step.w].phase.pos > 1
    ensures Inv(Apply(s, step))
  {
    var w := step.w;
    var a, p, s' := AttemptOf(s, w), s.workers[w].phase, Apply(s, step);
    WorkingHere(s, w);
    assert a.job in s.t.jobs ==> JobOk(s.t, a.job);
    var i := p.pos - 2;
    assert NextStatement(a, p) == InsertChunk(p.target, i, a.pdf.chunks[i]);
    assert RowsFor(a.pdf.chunks)[..i] + [Row(i, a.pdf.chunks[i])] == RowsFor(a.pdf.chunks)[..i + 1];
    KeepRowsWrite(s, s', w, a, p, RowsOf(s.t, p.target) + [Row(i, a.pdf.chunks[i])]);
  }

  lemma KeepSend(s: State, step: Step)
    requires Inv(s) && Enabled(s, step) && step.Send?
    ensures Inv(Apply(s, step))
  {
    var pos := s.workers[step.w].phase.pos;
    if pos == 0 {
      KeepUpsert(s, step);
    } else if pos == 1 {
      KeepDeleteRows(s, step);
    } else {
      KeepInsertRow(s, step);
    }
  }

  // ----- Steps that are not a worker's -----

  lemma KeepTick(s: State, step: Step)
    requires Inv(s) && Enabled(s, step) && step.Tick? && KeepsLease(s, step)
    ensures Inv(Apply(s, step))
  {
    var s' := Apply(s, step);
    forall j | j in s'.t.jobs ensures JobOk(s'.t, j) {
      assert JobOk(s.t, j);
    }
    forall w | w in s'.workers ensures WorkerOk(s', s'.workers[w]) {
      assert WorkerOk(s, s.workers[w]) && (s.workers[w].Working? ==> IsWorking(s, w));
    }
  }

  lemma KeepAbandon(s: State, step: Step)
    requires Inv(s) && Enabled(s, step) && step.AbandonUpload?
    ensures Inv(Apply(s, step))
  {
    var s' := Apply(s, step);
    forall w | w in s'.workers ensures WorkerOk(s', s'.workers[w]) {
      assert WorkerOk(s, s.workers[w]);
    }
  }

  lemma KeepCreatePending(s: State, step: Step)
    requires Inv(s) && Enabled(s, step) && step.CreatePending?
    ensures Inv(Apply(s, step))
  {
    var s' := Apply(s, step);
    forall j | j in s'.t.jobs ensures JobOk(s'.t, j) {
      assert JobOk(s.t, j);
    }
    forall j | j in s'.t.jobs ensures s'.t.jobs[j].doc != s.t.nextDoc {
      assert JobOk(s.t, j);
    }
    forall w | w in s'.workers ensures WorkerOk(s', s'.workers[w]) {
      assert WorkerOk(s, s.workers[w]);
    }
  }

  /** The enqueued job belongs to a document that no worker's attempt is about. */
  lemma EnqueueKeepsWorking(s: State, s': State, d: DocId, pdf: Pdf, a: Attempt, p: Phase)
    requires d in s.uploads && d in s.t.documents && WorkingOk(s, a, p)
    requires s' == s.(t := EnqueueJob(s.t, d, s.t.documents[d].name, pdf), uploads := s.uploads - {d})
    ensures WorkingOk(s', a, p)
  {
    assert OnlyJobOf(s', a.doc, a.job);
  }

  lemma EnqueueKeepsTables(s: State, s': State, d: DocId, pdf: Pdf)
    requires Inv(s) && d in s.uploads && d in s.t.documents
    requires s' == s.(t := EnqueueJob(s.t, d, s.t.documents[d].name, pdf), uploads := s.uploads - {d})
    ensures DocumentsOk(s') && JobsOk(s'.t) && UploadsOk(s')
  {
    forall j | j in s'.t.jobs ensures JobOk(s'.t, j) {
      assert j in s.t.jobs ==> JobOk(s.t, j);
    }
  }

  lemma KeepEnqueue(s: State, step: Step)
    requires Inv(s) && Enabled(s, step) && step.Enqueue?
    ensures Inv(Apply(s, step))
  {
    var s' := Apply(s, step);
    EnqueueKeepsTables(s, s', step.d, step.pdf);
    forall w | w in s'.workers ensures WorkerOk(s', s'.workers[w]) {
      assert WorkerOk(s, s.workers[w]);
      if s.workers[w].Working? {
        EnqueueKeepsWorking(s, s', step.d, step.pdf, s.workers[w].attempt, s.workers[w].phase);
      }
    }
  }

  /** A worker whose document is deleted goes on with no row to hold. */
  lemma DeleteKeepsWorking(s: State, s': State, d: DocId, a: Attempt, p: Phase)
    requires WorkingOk(s, a, p) && s' == s.(t := DeleteDocument(s.t, d))
    ensures WorkingOk(s', a, p)
  {
    assert OnlyJobOf(s', a.doc, a.job);
  }

  lemma KeepDelete(s: State, step: Step)
    requires Inv(s) && Enabled(s, step) && step.Delete?
    ensures Inv(Apply(s, step))
  {
    var s' := Apply(s, step);
    forall j | j in s'.t.jobs ensures JobOk(s'.t, j) {
      assert JobOk(s.t, j);
    }
    forall w | w in s'.workers ensures WorkerOk(s', s'.workers[w]) {
      assert WorkerOk(s, s.workers[w]);
      if s.workers[w].Working? {
        DeleteKeepsWorking(s, s', step.d, s.workers[w].attempt, s.workers[w].phase);
      }
    }
  }

  /** A live attempt's row is not past its deadline, so reaping leaves it alone. */
  lemma ReapKeepsWorking(s: State, s': State, a: Attempt, p: Phase)
    requires WorkingOk(s, a, p) && s' == s.(workers := s'.workers, t := ReapExhausted(s.t))
    ensures WorkingOk(s', a, p)
  {
    assert OnlyJobOf(s', a.doc, a.job);
    if p.Ingesting? && 1 <= p.pos {
      assert OnlyJobOf(s', p.target, a.job);
    }
  }

  lemma ReapKeepsTables(s: State, s': State)
    requires Inv(s) && s' == s.(workers := s'.workers, t := ReapExhausted(s.t))
    ensures DocumentsOk(s') && JobsOk(s'.t) && UploadsOk(s')
  {
    forall j | j in s'.t.jobs ensures JobOk(s'.t, j) {
      assert JobOk(s.t, j);
    }
  }

  lemma ReapedAreRejectable(s: State, s': State, d: DocId)
    requires Inv(s) && s' == s.(workers := s'.workers, t := ReapExhausted(s.t))
    requires d in ReapedDocuments(s.t) || RejectingOk(s, d)
    ensures RejectingOk(s', d)
  {
    if d in ReapedDocuments(s.t) {
      var j :| j in s.t.jobs && Reapable(s.t, j) && s.t.jobs[j].doc == d;
      JobOwnsItsDocument(s, j);
    }
  }

  lemma KeepReap(s: State, step: Step)
    requires Inv(s) && Enabled(s, step) && step.Reap?
    ensures Inv(Apply(s, step))
  {
    var s' := Apply(s, step);
    ReapKeepsTables(s, s');
    forall w | w in s'.workers ensures WorkerOk(s', s'.workers[w]) {
      assert w in s.workers && WorkerOk(s, s.workers[w]);
      match s'.workers[w] {
        case Working(a, p) => ReapKeepsWorking(s, s', a, p);
        case AboutToReap =>
        case Rejecting(remaining) =>
          forall d | d in remaining ensures RejectingOk(s', d) {
            ReapedAreRejectable(s, s', d);
          }
      }
    }
  }

  // ----- Every run -----

  lemma KeepInv(s: State, step: Step)
    requires Inv(s) && Enabled(s, step) && KeepsLease(s, step)
    ensures Inv(Apply(s, step))
  {
    match step
    case CreatePending(_) => KeepCreatePending(s, step);
    case Enqueue(_, _) => KeepEnqueue(s, step);
    case AbandonUpload(_) => KeepAbandon(s, step);
    case Delete(_) => KeepDelete(s, step);
    case Tick(_) => KeepTick(s, step);
    case Claim(_, _) => KeepClaim(s, step);
    case FindNothing(_) => KeepIdle(s, step);
    case Reap(_) => KeepReap(s, step);
    case RejectReaped(_, _) => KeepRejectReaped(s, step);
    case SeeDocument(_) => KeepControl(s, step);
    case Open(_) => KeepControl(s, step);
    case Send(_) => KeepSend(s, step);
    case Progress(_, _) => KeepProgress(s, step);
    case FinishIngest(_) => KeepFinishIngest(s, step);
    case Complete(_) => KeepComplete(s, step);
    case Raise(_, _) => KeepControl(s, step);
    case ReadBudget(_) => KeepControl(s, step);
    case RecordFail(_) => KeepRecordFail(s, step);
    case Reject(_) => KeepReject(s, step);
    case Crash(_) => KeepIdle(s, step);
  }

  lemma {:induction false} InvOverRun(s: State, steps: seq<Step>)
    requires Inv(s) && ValidUnderLease(s, steps)
    ensures Valid(s, steps) && Inv(Run(s, steps))
    decreases |steps|
  {
    if steps == [] {
    } else {
      KeepInv(s, steps[0]);
      InvOverRun(Apply(s, steps[0]), steps[1..]);
    }
  }

  /** The same for a run written out in which no time passes. */
  lemma {:induction false} InvOverWrittenOut(states: seq<State>, steps: seq<Step>, n: nat)
    requires IsRun(states, steps) && Inv(states[0]) && n <= |steps|
    requires forall i :: 0 <= i < |steps| ==> !steps[i].Tick?
    ensures Inv(states[n])
  {
    if n <= 0 {
    } else {
      InvOverWrittenOut(states, steps, n - 1);
      assert Enabled(states[n - 1], steps[n - 1]);
      KeepInv(states[n - 1], steps[n - 1]);
    }
  }

  /** Crash-safe ingest. However the workers, the uploads, the deletions and the crashes
      interleave, a job that is `done` has a document that is ready and whose rows are
      the chunker's output: each chunk once, in order, numbered 0..n-1, counted n. */
  lemma DoneMeansFullyIngested(steps: seq<Step>, j: JobId)
    requires ValidUnderLease(InitialState, steps)
    ensures Valid(InitialState, steps)
    ensures var t := Run(InitialState, steps).t;
            j in t.jobs && t.jobs[j].status.Done? ==> FullyIngested(t, t.jobs[j].doc, t.jobs[j].pdf)
  {
    InvOverRun(InitialState, steps);
    var t := Run(InitialState, steps).t;
    assert j in t.jobs ==> JobOk(t, j);
  }

  /** A document is rejected only when its job is dead-lettered. */
  lemma RejectedMeansFailed(steps: seq<Step>, j: JobId)
    requires ValidUnderLease(InitialState, steps)
    ensures Valid(InitialState, steps)
    ensures var t := Run(InitialState, steps).t;
            j in t.jobs ==>
              t.jobs[j].doc in t.documents
              && (t.documents[t.jobs[j].doc].status.Rejected? ==> t.jobs[j].status.Failed?)
  {
    InvOverRun(InitialState, steps);
    var t := Run(InitialState, steps).t;
    assert j in t.jobs ==> JobOk(t, j);
  }

  lemma LeaseExclusion(steps: seq<Step>, v: WorkerId, w: WorkerId)
    requires ValidUnderLease(InitialState, steps)
    ensures Valid(InitialState, steps)
    ensures var s := Run(InitialState, steps);
            IsWorking(s, v) && IsWorking(s, w) && AttemptOf(s, v).job == AttemptOf(s, w).job ==> v == w
  {
    InvOverRun(InitialState, steps);
    var s := Run(InitialState, steps);
    if IsWorking(s, v) && IsWorking(s, w) && AttemptOf(s, v).job == AttemptOf(s, w).job {
      assert OnJob(s.workers[v], AttemptOf(s, v).job) && OnJob(s.workers[w], AttemptOf(s, v).job);
    }
  }
}
