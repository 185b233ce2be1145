/** `process_job` of api/worker.py and `ingest_pdf` of ingest/pipeline.py, statement by
    statement, and one turn of the poll loop around them. `if *` is an exception that a
    connection, the storage, PyMuPDF or the embedding model may raise there. The methods
    keep the trace of the steps they take: started in any state of the step system of
    module WorkerSteps, with any other workers alive, what they do to the database is
    proved to be a run of that system, in which the others stand still meanwhile. The
    theorems about the system are about runs that interleave these same steps. */
module IngestWorker {
  import opened JobTables
  import opened WorkerSteps
  import opened Store
  import QueueInvariant
  import QueueSafety

  const EMBED_BATCH := 32

  /** `embed_texts`: one vector per text, in order. */
  function EmbedTexts(embed: string -> seq<real>, texts: seq<string>): (vectors: seq<seq<real>>)
    ensures |vectors| == |texts|
    ensures forall i :: 0 <= i < |texts| ==> vectors[i] == embed(texts[i])
  {
    seq(|texts|, i requires 0 <= i < |texts| => embed(texts[i]))
  }

  /** What chunking a file and embedding all its chunks at once gives. */
  function Embedded(embed: string -> seq<real>, texts: seq<string>): (bodies: seq<ChunkBody>)
    ensures |bodies| == |texts|
  {
    seq(|texts|, i requires 0 <= i < |texts| => ChunkBody(texts[i], embed(texts[i])))
  }

  /** Run alone from a sound state, a job that ends `done` is fully ingested. */
  lemma DoneAtTheEnd(states: seq<State>, steps: seq<Step>, j: JobId)
    requires IsRun(states, steps) && (forall i :: 0 <= i < |steps| ==> !steps[i].Tick?)
    requires QueueInvariant.Inv(states[0])
    requires j in states[|steps|].t.jobs && states[|steps|].t.jobs[j].status.Done?
    ensures var t := states[|steps|].t;
            QueueInvariant.FullyIngested(t, t.jobs[j].doc, t.jobs[j].pdf)
  {
    QueueSafety.InvOverWrittenOut(states, steps, |steps|);
    assert QueueInvariant.JobOk(states[|steps|].t, j);
  }

  class Process {
    const db: Database
    const w: WorkerId
    const attempt: Attempt
    const texts: seq<string>
    const embed: string -> seq<real>

    // `nonlocal` state of ingest_pdf, and `progress_state`
    var batch: seq<string>
    var written: nat
    var seen: nat
    var chunkCount: nat

    // What went wrong: an exception was raised, and it was that the blob is missing
    ghost var raised: bool
    ghost var lost: bool

    // The run of the step system so far
    ghost const start: State
    ghost const others: map<WorkerId, Worker>
    ghost var states: seq<State>
    ghost var steps: seq<Step>
    ghost var pos: nat
    ghost var target: DocId

    /** Worker w of the state `claimed`, right after its claim. */
    constructor (db: Database, w: WorkerId, attempt: Attempt, texts: seq<string>, embed: string -> seq<real>,
                 ghost claimed: State)
      requires db.Valid() && attempt.pdf.chunks == Embedded(embed, texts)
      requires claimed.t == db.Tables()
      requires w in claimed.workers && claimed.workers[w] == Working(attempt, CheckDocument)
      ensures this.db == db && this.w == w && this.attempt == attempt && start == claimed
      ensures At(CheckDocument) && Untouched() && others == claimed.workers - {w} && !raised && !lost
    {
      this.db, this.w, this.attempt, this.texts, this.embed := db, w, attempt, texts, embed;
      batch, written, seen, chunkCount := [], 0, 0, 0;
      start, others := claimed, claimed.workers - {w};
      states, steps, pos, target := [claimed], [], 0, 0;
      raised, lost := false, false;
      new;
      assert others[w := Working(attempt, CheckDocument)] == claimed.workers;
    }

    /** Nothing of the ingest has begun. */
    ghost predicate Untouched()
      reads this
    {
      batch == [] && written == 0 && seen == 0 && chunkCount == 0 && pos == 0 && target == 0
    }

    /** The run so far starts at the claim, and no time passes in it. */
    ghost predicate Recorded()
      reads this
    {
      && IsRun(states, steps)
      && states[0] == start
      && forall i :: 0 <= i < |steps| ==> !steps[i].Tick?
    }

    /** The run so far has led to this database and these workers, and has changed nothing
        else of the state that it started in. */
    ghost predicate Ran(workers: map<WorkerId, Worker>)
      reads this, db
    {
      && db.Valid()
      && attempt.pdf.chunks == Embedded(embed, texts)
      && Recorded()
      && w !in others
      && states[|steps|] == start.(t := db.Tables(), workers := workers)
    }

    /** Writes one more step of the run down. */
    ghost method Take(step: Step)
      requires Recorded() && Enabled(states[|steps|], step) && !step.Tick?
      modifies this`states, this`steps
      ensures Recorded() && states[|steps|] == Apply(old(states[|steps|]), step)
    {
      ExtendWrittenOut(states, steps, step);
      states, steps := states + [Apply(states[|steps|], step)], steps + [step];
    }

    ghost predicate At(p: Phase)
      reads this, db
    {
      Ran(others[w := Working(attempt, p)])
    }

    /** Inside the ingest, with `pos` of its statements done. */
    ghost predicate Here()
      reads this, db
    {
      && At(Ingesting(pos, target))
      && pos <= |texts| + 2
      && (1 <= pos ==> target in db.documents)
    }

    /** The loop state of ingest_pdf: `seen` chunks pulled, `written` of them inserted. */
    ghost predicate Streaming(documentId: DocId)
      reads this, db
    {
      && Here() && pos == 2 + written && target == documentId
      && written <= seen <= |texts|
      && batch == texts[written..seen] && |batch| <= 32
    }

    /** An exception, raised by whatever was called. */
    ghost method Raised()
      modifies this`raised
      ensures raised
    {
      raised := true;
    }

    method Report(stage: Stage, total: nat)
      requires Here() && !stage.AtDone?
      modifies this`chunkCount, this`states, this`steps, db`documents
      ensures Here()
      ensures chunkCount == if (stage.AtEmbedding? || stage.AtIndexing?) && total != 0 then total else old(chunkCount)
    {
      if (stage.AtEmbedding? || stage.AtIndexing?) && total != 0 {
        chunkCount := total;
      }
      // The write is throttled, and its failure is swallowed.
      if * {
        return;
      }
      Take(Progress(w, stage));
      db.UpdateStage(attempt.doc, stage);
    }

    method SendUpsert() returns (documentId: DocId)
      requires Here() && pos == 0
      modifies this`states, this`steps, this`pos, this`target, db`documents, db`chunks, db`nextDoc
      ensures Here() && pos == 1 && target == documentId
    {
      assert NextStatement(attempt, Ingesting(pos, target))
             == Statement.UpsertDocument(attempt.key, attempt.pdf.pageCount);
      Take(Send(w));
      documentId := db.UpsertDocument(attempt.key, attempt.pdf.pageCount);
      pos, target := 1, documentId;
    }

    method SendDelete(documentId: DocId)
      requires Here() && pos == 1 && target == documentId
      modifies this`states, this`steps, this`pos, db`chunks
      ensures Here() && pos == 2
    {
      assert NextStatement(attempt, Ingesting(1, documentId)) == Statement.DeleteChunks(documentId);
      Take(Send(w));
      db.DeleteChunks(documentId);
      pos := 2;
    }

    method SendInsert(documentId: DocId, i: nat, text: string, vector: seq<real>)
      requires Here() && pos == 2 + i && target == documentId
      requires i < |texts| && text == texts[i] && vector == embed(text)
      modifies this`states, this`steps, this`pos, db`chunks
      ensures Here() && pos == 3 + i
    {
      var body := ChunkBody(text, vector);
      assert NextStatement(attempt, Ingesting(pos, target)) == Statement.InsertChunk(documentId, i, body);
      Take(Send(w));
      db.InsertChunk(documentId, i, body);
      pos := pos + 1;
    }

    /** `flush_batch`: embeds the batch and inserts its rows; false if an exception
        ended it, after some of the rows. */
    method FlushBatch(documentId: DocId) returns (ok: bool)
      requires Streaming(documentId)
      requires !raised
      modifies this`raised, this`batch, this`written, this`states, this`steps, this`pos, db`chunks
      ensures Here()
      ensures ok ==> Streaming(documentId) && batch == [] && written == old(written + |batch|)
      ensures !ok ==> batch == old(batch) && written == old(written) && 2 + written <= pos <= 2 + written + |batch|
      ensures ok <==> !raised
    {
      if batch == [] {
        return true;
      }
      if * {
        Raised();
        return false;
      }
      var embeddings := EmbedTexts(embed, batch);
      var i := 0;
      while i < |batch|
        invariant i <= |batch| && batch == old(batch) && written == old(written)
        invariant Here() && pos == 2 + written + i && !raised
      {
        if * {
          Raised();
          return false;
        }
        SendInsert(documentId, written + i, batch[i], embeddings[i]);
        i := i + 1;
      }
      written := written + |batch|;
      batch := [];
      return true;
    }

    /** Reads the page count, upserts the document and deletes its old chunks. */
    method Prepare() returns (ok: bool, documentId: DocId)
      requires Here() && pos == 0 && chunkCount == 0
      requires !raised
      modifies this`raised
      modifies this`chunkCount, this`states, this`steps, this`pos, this`target, db`documents, db`chunks, db`nextDoc
      ensures Here()
      ensures ok ==> pos == 2 && target == documentId && chunkCount == 0
      ensures ok <==> !raised
    {
      documentId := 0;
      Report(AtReading, 0);
      if * { Raised(); return false, 0; }
      Report(AtReading, attempt.pdf.pageCount);
      if * { Raised(); return false, 0; }
      ok, documentId := SendDocument();
    }

    method SendDocument() returns (ok: bool, documentId: DocId)
      requires Here() && pos == 0
      requires !raised
      modifies this`raised, this`states, this`steps, this`pos, this`target, db`documents, db`chunks, db`nextDoc
      ensures Here()
      ensures ok ==> pos == 2 && target == documentId
      ensures ok <==> !raised
    {
      documentId := SendUpsert();
      if * { Raised(); return false, documentId; }
      SendDelete(documentId);
      return true, documentId;
    }

    method ReportSeen(documentId: DocId)
      requires Streaming(documentId)
      modifies this`chunkCount, this`states, this`steps, db`documents
      ensures Streaming(documentId)
      ensures chunkCount == if seen != 0 then seen else old(chunkCount)
    {
      Report(AtEmbedding, seen);
    }

    /** Flushes a full batch and reports how many chunks were seen. */
    method FlushFull(documentId: DocId) returns (ok: bool)
      requires Streaming(documentId)
      requires !raised
      modifies this`raised
      modifies this`batch, this`written, this`chunkCount, this`states, this`steps, this`pos, db`documents, db`chunks
      ensures Here()
      ensures ok ==> Streaming(documentId) && batch == []
      ensures ok <==> !raised
    {
      ok := FlushBatch(documentId);
      if ok {
        ReportSeen(documentId);
      }
    }

    /** Pulls the chunks one by one and flushes every full batch. */
    method PullChunks(documentId: DocId) returns (ok: bool)
      requires Streaming(documentId) && batch == [] && seen == 0
      requires !raised
      modifies this`raised, this`batch, this`written, this`seen, this`chunkCount, this`states, this`steps, this`pos
      modifies db`documents, db`chunks
      ensures Here()
      ensures ok ==> Streaming(documentId) && seen == |texts| && (texts == [] ==> chunkCount == old(chunkCount))
      ensures ok <==> !raised
    {
      while seen < |texts|
        invariant Streaming(documentId) && |batch| < EMBED_BATCH && !raised
        invariant seen == 0 ==> chunkCount == old(chunkCount)
      {
        if * { Raised(); return false; }
        batch := batch + [texts[seen]];
        seen := seen + 1;
        if |batch| >= EMBED_BATCH {
          ok := FlushFull(documentId);
          if !ok { return; }
        }
      }
      return true;
    }

    /** The counts of a stream that was read to its end, now exact. */
    method ReportCounts(documentId: DocId)
      requires Streaming(documentId) && seen == written == |texts| && (texts == [] ==> chunkCount == 0)
      modifies this`chunkCount, this`states, this`steps, db`documents
      ensures Here() && chunkCount == |texts|
    {
      ReportSeen(documentId);
      Report(AtIndexing, written);
    }

    /** Flushes what is left and reports. */
    method FinishStream(documentId: DocId) returns (ok: bool)
      requires Streaming(documentId) && seen == |texts| && (texts == [] ==> chunkCount == 0)
      requires !raised
      modifies this`raised
      modifies this`batch, this`written, this`chunkCount, this`states, this`steps, this`pos, db`documents, db`chunks
      ensures Here()
      ensures ok ==> pos == |texts| + 2 && chunkCount == |texts|
      ensures ok <==> !raised
    {
      ok := FlushBatch(documentId);
      if ok {
        ReportCounts(documentId);
      }
    }

    /** Everything before the first chunk is pulled. */
    method Begin() returns (ok: bool, documentId: DocId)
      requires Here() && pos == 0 && batch == [] && written == 0 && seen == 0 && chunkCount == 0
      requires !raised
      modifies this`raised
      modifies this`chunkCount, this`states, this`steps, this`pos, this`target, db`documents, db`chunks, db`nextDoc
      ensures Here()
      ensures ok ==> Streaming(documentId) && batch == [] && seen == 0 && chunkCount == 0
      ensures ok <==> !raised
    {
      ok, documentId := Prepare();
      if ok {
        ReportStart(documentId);
      }
    }

    method ReportStart(documentId: DocId)
      requires Streaming(documentId) && chunkCount == 0
      modifies this`chunkCount, this`states, this`steps, db`documents
      ensures Streaming(documentId) && chunkCount == 0
    {
      Report(AtChunking, attempt.pdf.pageCount);
      Report(AtEmbedding, 0);
    }

    /** `ingest_pdf`. A scanned file raises once its last page was walked. */
    method IngestPdf() returns (ok: bool)
      requires Here() && pos == 0 && batch == [] && written == 0 && seen == 0 && chunkCount == 0
      requires !raised
      modifies this`raised
      modifies this`batch, this`written, this`seen, this`chunkCount, this`states, this`steps, this`pos, this`target
      modifies db`documents, db`chunks, db`nextDoc
      ensures Here()
      ensures ok ==> pos == |texts| + 2 && attempt.pdf.hasText && chunkCount == |texts|
      ensures ok <==> !raised && attempt.pdf.hasText
    {
      var documentId;
      ok, documentId := Begin();
      if !ok { return; }
      ok := PullChunks(documentId);
      if !ok { return; }
      if !attempt.pdf.hasText { return false; }
      ok := FinishStream(documentId);
    }

    /** `fail_job`: reads the budget, then requeues or dead-letters; nothing to do when the
        job is gone. True if the job will be retried. */
    method FailJob(missingBlob: bool) returns (retried: bool)
      requires At(ReadingBudget(missingBlob))
      modifies this`states, this`steps, db`jobs
      ensures if missingBlob || retried then Ran(others) else At(RejectingDocument)
      ensures retried <==> attempt.job in old(db.jobs)
                           && old(db.jobs)[attempt.job].attempts < old(db.jobs)[attempt.job].maxAttempts
      ensures attempt.job in old(db.jobs) ==>
        attempt.job in db.jobs && db.jobs[attempt.job].status == if retried then Queued else Failed
    {
      Take(ReadBudget(w));
      if attempt.job !in db.jobs {
        return false;
      }
      var attempts, maxAttempts := db.jobs[attempt.job].attempts, db.jobs[attempt.job].maxAttempts;
      Take(RecordFail(w));
      if attempts < maxAttempts {
        db.Requeue(attempt.job);
        return true;
      }
      db.SetStatus(attempt.job, Failed);
      return false;
    }

    predicate HasBudget(jobs: map<JobId, Job>) {
      attempt.job in jobs && jobs[attempt.job].attempts < jobs[attempt.job].maxAttempts
    }

    /** The job is back in the queue if attempts remain, and dead-lettered if not; in that
        case its document is rejected, unless the blob is missing. */
    predicate HandedBack(before: map<JobId, Job>, after: map<JobId, Job>, documents: map<DocId, Document>,
                         now: map<DocId, Document>, missingBlob: bool) {
      && (attempt.job in before ==>
            attempt.job in after && after[attempt.job].status == if HasBudget(before) then Queued else Failed)
      && now.Keys == documents.Keys
      && (attempt.doc in documents ==>
            now[attempt.doc].status
            == if !missingBlob && !HasBudget(before) then Rejected else documents[attempt.doc].status)
    }

    /** The two exception handlers of `process_job`. */
    method HandleFailure(missingBlob: bool)
      requires At(ReadingBudget(missingBlob))
      modifies this`states, this`steps, db`jobs, db`documents
      ensures Ran(others)
      ensures HandedBack(old(db.jobs), db.jobs, old(db.documents), db.documents, missingBlob)
    {
      var retried := FailJob(missingBlob);
      if !missingBlob && !retried {
        Take(Reject(w));
        db.MarkFailed(attempt.doc);
      }
    }

    /** Opens the blob and checks its length. */
    method OpenBlob() returns (ok: bool, missingBlob: bool)
      requires At(OpenPdf) && pos == 0 && target == 0 && !raised && !lost
      modifies this`raised, this`lost, this`states, this`steps
      ensures if ok then Here() else At(ReadingBudget(missingBlob))
      ensures ok <==> !raised && attempt.pdf.pageCount <= 500
      ensures (missingBlob <==> lost) && (lost ==> raised)
    {
      if * {
        Raised();
        lost := true;
        Take(Raise(w, true));
        return false, true;
      }
      ok := attempt.pdf.pageCount <= MAX_PAGE_COUNT;
      Take(if ok then Open(w) else Raise(w, false));
      return ok, false;
    }

    /** The last write of an ingest that went well. */
    method MarkIngested()
      requires Here() && pos == |texts| + 2 && attempt.pdf.hasText && chunkCount == |texts|
      modifies this`states, this`steps, db`documents
      ensures At(CompletingJob)
    {
      Take(FinishIngest(w));
      db.MarkReady(attempt.doc, chunkCount);
    }

    /** An exception during the ingest. */
    method BreakOff()
      requires Here()
      modifies this`states, this`steps
      ensures At(ReadingBudget(false))
    {
      Take(Raise(w, false));
    }

    /** Opens the blob and ingests it; true if the job reached `complete_job`'s turn. */
    method TryIngest() returns (ok: bool, missingBlob: bool)
      requires At(OpenPdf) && Untouched() && !raised && !lost
      modifies this`raised, this`lost
      modifies this`batch, this`written, this`seen, this`chunkCount, this`states, this`steps, this`pos, this`target
      modifies db`documents, db`chunks, db`nextDoc
      ensures if ok then At(CompletingJob) else At(ReadingBudget(missingBlob))
      ensures ok <==> !raised && attempt.pdf.pageCount <= 500 && attempt.pdf.hasText
      ensures !ok ==> (missingBlob <==> lost)
    {
      ok, missingBlob := OpenBlob();
      if !ok { return; }
      ok := IngestPdf();
      if ok {
        MarkIngested();
      } else {
        BreakOff();
        missingBlob := false;
      }
    }

    /** `complete_job`, which may raise like any other statement. */
    method FinishJob() returns (completed: bool)
      requires At(CompletingJob) && !raised
      modifies this`raised, this`states, this`steps, db`jobs, db`documents
      ensures Ran(others)
      ensures completed <==> !raised
      ensures completed ==> (attempt.job in db.jobs <==> attempt.job in old(db.jobs))
      ensures completed && attempt.job in db.jobs ==> db.jobs[attempt.job].status.Done?
      ensures !completed ==> HandedBack(old(db.jobs), db.jobs, old(db.documents), db.documents, false)
    {
      if * {
        Raised();
        Take(Raise(w, false));
        HandleFailure(false);
        return false;
      }
      Take(Complete(w));
      db.SetStatus(attempt.job, Done);
      return true;
    }

    /** `process_job`: whatever raises where, what it does is a run of this one worker, from
        the claim to the last statement. It completes exactly if the document is there, the
        file has no more than 500 pages and some text, and nothing is raised; else the job
        is handed back. */
    method ProcessJob() returns (completed: bool)
      requires At(CheckDocument) && Untouched() && !raised && !lost
      modifies this`raised, this`lost
      modifies this`batch, this`written, this`seen, this`chunkCount, this`states, this`steps, this`pos, this`target
      modifies db`jobs, db`documents, db`chunks, db`nextDoc
      ensures Ran(others)
      ensures completed <==>
        attempt.doc in old(db.documents) && attempt.pdf.pageCount <= 500 && attempt.pdf.hasText && !raised
      ensures !completed && attempt.doc in old(db.documents) && attempt.job in old(db.jobs) ==>
        && attempt.job in db.jobs
        && db.jobs[attempt.job].status == (if HasBudget(old(db.jobs)) then Queued else Failed)
        && (!HasBudget(old(db.jobs)) && !lost && attempt.doc in db.documents ==>
              db.documents[attempt.doc].status.Rejected?)
      ensures completed && attempt.job in old(db.jobs) ==>
        attempt.job in db.jobs && db.jobs[attempt.job].status.Done?
      ensures completed && attempt.job in old(db.jobs) && QueueInvariant.Inv(start) ==>
        QueueInvariant.FullyIngested(db.Tables(), db.jobs[attempt.job].doc, db.jobs[attempt.job].pdf)
    {
      Take(SeeDocument(w));
      if attempt.doc !in db.documents {
        return false;
      }
      var missingBlob;
      completed, missingBlob := TryIngest();
      if completed {
        completed := FinishJob();
        if completed && attempt.job in db.jobs && QueueInvariant.Inv(start) {
          DoneAtTheEnd(states, steps, attempt.job);
        }
      } else {
        HandleFailure(missingBlob);
      }
    }
  }

  /** The documents that the reaping loop rejects. */
  function RejectAll(t: Tables, docs: set<DocId>): Tables {
    t.(documents := map d | d in t.documents ::
      if d in docs then t.documents[d].(status := Rejected) else t.documents[d])
  }

  // ----- The poll loop -----

  lemma InvAfter(s: State, step: Step)
    requires QueueInvariant.Inv(s) && Enabled(s, step) && !step.Tick?
    ensures QueueInvariant.Inv(Apply(s, step))
  {
    QueueSafety.KeepInv(s, step);
  }

  /** The steps lead from s to s', and no time passes. */
  ghost predicate Leads(s: State, steps: seq<Step>, s': State) {
    Valid(s, steps) && Run(s, steps) == s' && forall i :: 0 <= i < |steps| ==> !steps[i].Tick?
  }

  lemma OneStepLeads(s: State, step: Step)
    requires Enabled(s, step) && !step.Tick?
    ensures Leads(s, [step], Apply(s, step))
  {
    assert [step][1..] == [];
  }

  lemma {:induction false} LeadsOn(s: State, steps: seq<Step>, m: State, more: seq<Step>, s': State)
    requires Leads(s, steps, m) && Leads(m, more, s')
    ensures Leads(s, steps + more, s')
    decreases |steps|
  {
    if steps == [] {
      assert steps + more == more;
    } else {
      assert (steps + more)[1..] == steps[1..] + more;
      assert forall i :: 0 <= i < |steps| - 1 ==> steps[1..][i] == steps[i + 1];
      LeadsOn(Apply(s, steps[0]), steps[1..], m, more, s');
    }
  }

  lemma LastStepLeads(s: State, steps: seq<Step>, s': State, step: Step)
    requires Leads(s, steps, s') && Enabled(s', step) && !step.Tick?
    ensures Leads(s, steps + [step], Apply(s', step))
  {
    RunOneMore(s, steps, step);
  }

  /** The loop of `_reap_exhausted_jobs` by worker w over the documents it got back. */
  method RejectReapedDocuments(db: Database, w: WorkerId, reaped: set<DocId>, ghost s: State)
    returns (ghost run: seq<Step>, ghost s': State)
    requires db.Valid() && s.t == db.Tables() && QueueInvariant.Inv(s)
    requires if reaped == {} then w !in s.workers else w in s.workers && s.workers[w] == Rejecting(reaped)
    modifies db`documents
    ensures db.Valid() && QueueInvariant.Inv(s') && s' == s.(t := db.Tables(), workers := s.workers - {w})
    ensures Leads(s, run, s')
    ensures db.Tables() == RejectAll(old(db.Tables()), reaped)
  {
    run, s' := [], s;
    ghost var t := db.Tables();
    var remaining := reaped;
    RejectNone(t, reaped);
    while remaining != {}
      invariant remaining <= reaped && db.Valid()
      invariant db.Tables() == RejectAll(t, reaped - remaining)
      invariant QueueInvariant.Inv(s') && s' == s.(t := db.Tables(), workers := Rejecters(s, w, remaining))
      invariant Leads(s, run, s')
      decreases |remaining|
    {
      var d :| d in remaining;
      RejectOneMore(t, reaped, remaining, d);
      run, s' := RejectedState(s, w, run, s', remaining, d);
      db.MarkFailed(d);
      remaining := remaining - {d};
    }
    assert reaped - remaining == reaped;
  }

  /** `_reap_exhausted_jobs` by worker w, which is about to do so in state s. */
  method ReapExhaustedJobs(db: Database, w: WorkerId, ghost s: State) returns (ghost run: seq<Step>, ghost s': State)
    requires db.Valid() && s.t == db.Tables() && QueueInvariant.Inv(s)
    requires w in s.workers && s.workers[w].AboutToReap?
    modifies db`jobs, db`documents
    ensures db.Valid() && QueueInvariant.Inv(s') && s' == s.(t := db.Tables(), workers := s.workers - {w})
    ensures Leads(s, run, s')
    ensures db.Tables() == RejectAll(ReapExhausted(old(db.Tables())), ReapedDocuments(old(db.Tables())))
  {
    var reaped := db.ReapRows();
    ghost var m := ReapedState(s, w);
    run, s' := RejectReapedDocuments(db, w, reaped, m);
    LeadsOn(s, [Reap(w)], m, run, s');
    run := [Reap(w)] + run;
    assert s.workers[w := Rejecting(reaped)] - {w} == s.workers - {w};
  }

  lemma ReapedState(s: State, w: WorkerId) returns (after: State)
    requires QueueInvariant.Inv(s) && w in s.workers && s.workers[w].AboutToReap?
    ensures QueueInvariant.Inv(after) && Leads(s, [Reap(w)], after)
    ensures after == s.(t := ReapExhausted(s.t), workers := Rejecters(s, w, ReapedDocuments(s.t)))
  {
    InvAfter(s, Reap(w));
    OneStepLeads(s, Reap(w));
    after := Apply(s, Reap(w));
  }

  lemma RejectNone(t: Tables, docs: set<DocId>)
    ensures RejectAll(t, docs - docs) == t
  {}

  lemma RejectOneMore(t: Tables, docs: set<DocId>, remaining: set<DocId>, d: DocId)
    requires d in remaining && remaining <= docs
    ensures MarkDocumentFailed(RejectAll(t, docs - remaining), d) == RejectAll(t, docs - (remaining - {d}))
  {}

  /** The state after the rejection of one more document. */
  lemma RejectedState(s: State, w: WorkerId, run: seq<Step>, before: State, remaining: set<DocId>, d: DocId)
    returns (longer: seq<Step>, after: State)
    requires QueueInvariant.Inv(before) && d in remaining && w in s.workers && Leads(s, run, before)
    requires before == s.(t := before.t, workers := Rejecters(s, w, remaining))
    ensures QueueInvariant.Inv(after) && Leads(s, longer, after)
    ensures after == s.(t := MarkDocumentFailed(before.t, d), workers := Rejecters(s, w, remaining - {d}))
  {
    InvAfter(before, RejectReaped(w, d));
    LastStepLeads(s, run, before, RejectReaped(w, d));
    longer, after := run + [RejectReaped(w, d)], Apply(before, RejectReaped(w, d));
    assert before.workers[w := Rejecting(remaining - {d})] == s.workers[w := Rejecting(remaining - {d})];
    assert before.workers - {w} == s.workers - {w};
  }

  ghost function Rejecters(s: State, w: WorkerId, remaining: set<DocId>): map<WorkerId, Worker> {
    if remaining == {} then s.workers - {w} else s.workers[w := Rejecting(remaining)]
  }

  /** `claim_job`: the oldest claimable job, or none, after dead-lettering every job that
      used up its attempts and rejecting its document. */
  method ClaimOrReap(db: Database, w: WorkerId, ghost s: State)
    returns (claimed: bool, j: JobId, ghost run: seq<Step>, ghost s': State)
    requires db.Valid() && s.t == db.Tables() && QueueInvariant.Inv(s) && w !in s.workers
    modifies db`jobs, db`documents
    ensures db.Valid() && QueueInvariant.Inv(s') && s'.t == db.Tables() && Leads(s, run, s')
    ensures claimed ==> OldestClaimable(old(db.Tables()), j) && db.Tables() == ClaimJob(old(db.Tables()), j)
    ensures claimed ==> run == [Claim(w, j)] && Enabled(s, Claim(w, j)) && s' == Apply(s, Claim(w, j))
    ensures !claimed ==>
      && (forall k :: k in old(db.jobs) ==> !Claimable(old(db.Tables()), k))
      && db.Tables() == RejectAll(ReapExhausted(old(db.Tables())), ReapedDocuments(old(db.Tables())))
      && s' == s.(t := db.Tables())
  {
    claimed, j := db.ClaimRow();
    if claimed {
      InvAfter(s, Claim(w, j));
      OneStepLeads(s, Claim(w, j));
      run, s' := [Claim(w, j)], Apply(s, Claim(w, j));
    } else {
      run, s' := ReapAfterNothing(db, w, s);
    }
  }

  /** What an idle worker that found nothing to claim goes on to do. */
  method ReapAfterNothing(db: Database, w: WorkerId, ghost s: State) returns (ghost run: seq<Step>, ghost s': State)
    requires db.Valid() && s.t == db.Tables() && QueueInvariant.Inv(s) && Enabled(s, FindNothing(w))
    modifies db`jobs, db`documents
    ensures db.Valid() && QueueInvariant.Inv(s') && s' == s.(t := db.Tables()) && Leads(s, run, s')
    ensures db.Tables() == RejectAll(ReapExhausted(old(db.Tables())), ReapedDocuments(old(db.Tables())))
  {
    InvAfter(s, FindNothing(w));
    OneStepLeads(s, FindNothing(w));
    run, s' := ReapExhaustedJobs(db, w, Apply(s, FindNothing(w)));
    LeadsOn(s, [FindNothing(w)], Apply(s, FindNothing(w)), run, s');
    run := [FindNothing(w)] + run;
    assert s.workers[w := AboutToReap] - {w} == s.workers;
  }

  /** The vectors of the file are those of its texts. */
  predicate IsEmbedded(embed: string -> seq<real>, pdf: Pdf) {
    forall i :: 0 <= i < |pdf.chunks| ==> pdf.chunks[i].embedding == embed(pdf.chunks[i].text)
  }

  function TextsOf(pdf: Pdf): seq<string> {
    seq(|pdf.chunks|, i requires 0 <= i < |pdf.chunks| => pdf.chunks[i].text)
  }

  /** The limits of the service. */
  predicate CanBeIngested(pdf: Pdf) {
    pdf.pageCount <= 500 && pdf.hasText
  }

  /** What an attempt leaves of its job: done; or back in the queue while attempts remain;
      or failed, with its document rejected unless the blob was missing. */
  predicate SettledAs(job: Job, completed: bool, lost: bool, now: Job, documents: map<DocId, Document>) {
    && now.status == (if completed then Done else if job.attempts < job.maxAttempts then Queued else Failed)
    && (now.status.Failed? && !lost && job.doc in documents ==> documents[job.doc].status.Rejected?)
  }

  /** `process_job` for the job that worker w has just claimed. */
  method WorkOff(db: Database, w: WorkerId, j: JobId, embed: string -> seq<real>, ghost s: State)
    returns (completed: bool, ghost raised: bool, ghost lost: bool, ghost run: seq<Step>, ghost s': State)
    requires db.Valid() && s.t == db.Tables() && QueueInvariant.Inv(s) && j in db.jobs
    requires IsEmbedded(embed, db.jobs[j].pdf)
    requires w in s.workers && s.workers[w] == Working(AttemptAt(db.jobs[j], j), CheckDocument)
    modifies db
    ensures db.Valid() && s'.t == db.Tables() && QueueInvariant.Inv(s') && Leads(s, run, s')
    ensures s'.workers == s.workers - {w} && s'.uploads == s.uploads
    ensures completed <==> CanBeIngested(old(db.jobs)[j].pdf) && !raised
    ensures j in db.jobs && SettledAs(old(db.jobs)[j], completed, lost, db.jobs[j], db.documents)
  {
    assert QueueInvariant.JobOk(s.t, j);
    var a := AttemptAt(db.jobs[j], j);
    assert a.pdf.chunks == Embedded(embed, TextsOf(a.pdf));
    var process := new Process(db, w, a, TextsOf(a.pdf), embed, s);
    completed := process.ProcessJob();
    QueueSafety.InvOverWrittenOut(process.states, process.steps, |process.steps|);
    WrittenOutRun(process.states, process.steps);
    run, s' := process.steps, process.states[|process.steps|];
    raised, lost := process.raised, process.lost;
  }

  /** The attempt of a job as its claim left the row. */
  function AttemptAt(job: Job, j: JobId): Attempt {
    Attempt(j, job.doc, job.key, job.pdf, job.attempts, job.visibleAt)
  }

  /** One turn of `run_forever` by an idle worker, in any sound state of the system, with
      any other workers alive: the state it leaves is sound again, the others are where
      they were, and a job that it completes is fully ingested. */
  method PollOnce(db: Database, w: WorkerId, embed: string -> seq<real>, ghost s: State)
    returns (claimed: bool, j: JobId, completed: bool, ghost raised: bool, ghost lost: bool,
             ghost run: seq<Step>, ghost s': State)
    requires db.Valid() && s.t == db.Tables() && QueueInvariant.Inv(s) && w !in s.workers
    requires forall k :: k in db.jobs ==> IsEmbedded(embed, db.jobs[k].pdf)
    modifies db
    ensures db.Valid() && s'.t == db.Tables() && QueueInvariant.Inv(s') && Leads(s, run, s')
    ensures s'.workers == s.workers && s'.uploads == s.uploads
    ensures completed ==> claimed && j in old(db.jobs)
    ensures completed && j in db.jobs ==>
      db.jobs[j].status.Done? && QueueInvariant.FullyIngested(db.Tables(), db.jobs[j].doc, db.jobs[j].pdf)
    ensures !claimed ==> forall k :: k in old(db.jobs) ==> !Claimable(old(db.Tables()), k)
    ensures claimed ==>
      && OldestClaimable(old(db.Tables()), j)
      && (completed <==> CanBeIngested(old(db.jobs)[j].pdf) && !raised)
      && j in db.jobs
      && SettledAs(ClaimJob(old(db.Tables()), j).jobs[j], completed, lost, db.jobs[j], db.documents)
  {
    raised, lost := false, false;
    claimed, j, run, s' := ClaimOrReap(db, w, s);
    completed := false;
    if claimed {
      assert s'.workers - {w} == s.workers;
      ghost var claim, m := run, s';
      completed, raised, lost, run, s' := WorkOff(db, w, j, embed, m);
      LeadsOn(s, claim, m, run, s');
      run := claim + run;
      if j in db.jobs {
        assert QueueInvariant.JobOk(s'.t, j);
      }
    }
  }

  /** What an upload leaves: the document waiting and, unless the request died in between,
      its job. */
  function Uploaded(t: Tables, key: Key, pdf: Pdf, queued: bool): Tables {
    var created := CreatePendingDocument(t, key);
    if queued then EnqueueJob(created, t.nextDoc, key, pdf) else created
  }

  lemma FreshKey(s: State, key: Key)
    requires QueueInvariant.Inv(s) && key !in s.usedKeys
    ensures !NameTaken(s.t, key) && s.t.nextDoc !in s.t.documents && s.t.nextDoc !in s.uploads
  {
    forall d ensures !HasName(s.t, d, key) {
      if d in s.t.documents {
        assert s.t.documents[d].name in s.usedKeys;
      }
    }
  }

  lemma UploadedState(s: State, key: Key, pdf: Pdf, queued: bool) returns (run: seq<Step>, s': State)
    requires QueueInvariant.Inv(s) && key !in s.usedKeys
    ensures QueueInvariant.Inv(s') && Leads(s, run, s')
    ensures s' == s.(t := Uploaded(s.t, key, pdf, queued), usedKeys := s.usedKeys + {key})
  {
    FreshKey(s, key);
    var d, created := s.t.nextDoc, Apply(s, CreatePending(key));
    var step := if queued then Enqueue(d, pdf) else AbandonUpload(d);
    InvAfter(s, CreatePending(key));
    InvAfter(created, step);
    run, s' := [CreatePending(key)] + [step], Apply(created, step);
    OneStepLeads(s, CreatePending(key));
    LastStepLeads(s, [CreatePending(key)], created, step);
    assert s.uploads + {d} - {d} == s.uploads;
  }

  /** The end of `upload_document`, in any sound state: the file is stored under a fresh key,
      then come the document and its job. */
  method Upload(db: Database, key: Key, pdf: Pdf, ghost s: State)
    returns (d: DocId, queued: bool, ghost died: bool, ghost run: seq<Step>, ghost s': State)
    requires db.Valid() && s.t == db.Tables() && QueueInvariant.Inv(s) && key !in s.usedKeys
    modifies db`documents, db`chunks, db`nextDoc, db`jobs, db`nextJob
    ensures db.Valid() && s'.t == db.Tables() && QueueInvariant.Inv(s') && Leads(s, run, s')
    ensures db.Tables() == Uploaded(old(db.Tables()), key, pdf, queued) && d == old(db.nextDoc)
    ensures queued <==> !died
    ensures s'.workers == s.workers && s'.uploads == s.uploads && s'.claims == s.claims
  {
    FreshKey(s, key);
    d := db.InsertDocument(key);
    queued, died := false, false;
    if * {
      died := true;
    } else {
      var j := db.InsertJob(d, key, pdf);
      queued := true;
    }
    run, s' := UploadedState(s, key, pdf, queued);
  }

  /** The states in which `process_job` starts: right after a claim, anywhere in a run of
      the whole system under the lease. */
  lemma ClaimedStateIsSound(steps: seq<Step>, w: WorkerId, j: JobId)
    requires ValidUnderLease(InitialState, steps) && Valid(InitialState, steps)
    requires Enabled(Run(InitialState, steps), Claim(w, j))
    ensures var s := Apply(Run(InitialState, steps), Claim(w, j));
            && QueueInvariant.Inv(s) && j in s.t.jobs && w in s.workers
            && s.workers[w] == Working(AttemptAt(s.t.jobs[j], j), CheckDocument)
  {
    QueueSafety.InvOverRun(InitialState, steps);
    InvAfter(Run(InitialState, steps), Claim(w, j));
  }
}
