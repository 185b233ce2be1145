/** The database as the Python code sees it: an object whose rows the statements of
    api/jobs_repo.py, api/documents_repo.py and ingest/db.py change in place. Every
    method is proved to be the statement of module JobTables that the step system of
    module WorkerSteps interleaves. */
module Store {
  import opened JobTables

  predicate Named(documents: map<DocId, Document>, d: DocId, key: Key) {
    d in documents && documents[d].name == key
  }

  ghost predicate UniqueNames(documents: map<DocId, Document>) {
    forall d, e, key :: Named(documents, d, key) && Named(documents, e, key) ==> d == e
  }

  /** A write that leaves the name of a row, or adds a row with a new name. */
  lemma WriteKeepsNames(documents: map<DocId, Document>, d: DocId, doc: Document)
    requires UniqueNames(documents)
    requires d in documents ==> documents[d].name == doc.name
    requires d !in documents ==> forall e :: !Named(documents, e, doc.name)
    ensures UniqueNames(documents[d := doc])
  {
    var documents' := documents[d := doc];
    forall e, f, key | Named(documents', e, key) && Named(documents', f, key) ensures e == f {
      assert e != d ==> Named(documents, e, key);
      assert f != d ==> Named(documents, f, key);
      assert d in documents && documents[d].name == key ==> Named(documents, d, key);
    }
  }

  class Database {
    var now: real
    var jobs: map<JobId, Job>
    var documents: map<DocId, Document>
    var chunks: map<DocId, seq<Row>>
    var nextJob: JobId
    var nextDoc: DocId

    function Tables(): Tables
      reads this
    {
      JobTables.Tables.Tables(now, jobs, documents, chunks, nextJob, nextDoc)
    }

    /** Document names are UNIQUE, chunk rows reference documents, and serial numbers
        have not been used. */
    ghost predicate Valid()
      reads this
    {
      && chunks.Keys == documents.Keys
      && (forall d :: d in documents ==> d < nextDoc)
      && UniqueNames(documents)
    }

    constructor ()
      ensures Valid() && Tables() == EmptyTables
    {
      now, jobs, documents, chunks, nextJob, nextDoc := 0.0, map[], map[], map[], 0, 0;
    }

    /** `enqueue_job`; the foreign key needs the document. */
    method InsertJob(d: DocId, key: Key, pdf: Pdf) returns (j: JobId)
      requires Valid() && d in documents
      modifies this`jobs, this`nextJob
      ensures Valid() && Tables() == EnqueueJob(old(Tables()), d, key, pdf) && j == old(nextJob)
      ensures j in jobs && jobs[j].maxAttempts == 3
    {
      j := nextJob;
      jobs := jobs[j := Job(d, key, pdf, Queued, 0, DEFAULT_MAX_ATTEMPTS, now, now)];
      nextJob := nextJob + 1;
    }

    /** `create_pending_document`; names are random keys, never used before. */
    method InsertDocument(key: Key) returns (d: DocId)
      requires Valid() && !NameTaken(Tables(), key)
      modifies this`documents, this`chunks, this`nextDoc
      ensures Valid() && Tables() == CreatePendingDocument(old(Tables()), key) && d == old(nextDoc)
    {
      d := nextDoc;
      forall e ensures !Named(documents, e, key) {
        assert !HasName(Tables(), e, key);
      }
      WriteKeepsNames(documents, d, Document(key, InProgress, AtQueued, 0, 0));
      documents := documents[d := Document(key, InProgress, AtQueued, 0, 0)];
      chunks := chunks[d := []];
      nextDoc := nextDoc + 1;
    }

    /** `delete_document`, with its cascade to the job and the chunk rows. */
    method Delete(d: DocId)
      requires Valid()
      modifies this`documents, this`chunks, this`jobs
      ensures Valid() && Tables() == DeleteDocument(old(Tables()), d)
    {
      ghost var before := documents;
      documents := documents - {d};
      chunks := chunks - {d};
      jobs := map j | j in jobs && jobs[j].doc != d :: jobs[j];
      forall e, f, key | Named(documents, e, key) && Named(documents, f, key) ensures e == f {
        assert Named(before, e, key) && Named(before, f, key);
      }
    }

    /** `claim_job`'s UPDATE: none when nothing is claimable, else the oldest. */
    method ClaimRow() returns (found: bool, j: JobId)
      requires Valid()
      modifies this`jobs
      ensures Valid()
      ensures found <==> exists k :: k in old(jobs) && Claimable(old(Tables()), k)
      ensures found ==> OldestClaimable(old(Tables()), j) && Tables() == ClaimJob(old(Tables()), j)
      ensures found ==> jobs[j].visibleAt == now + 600.0 && jobs[j].attempts == old(jobs)[j].attempts + 1
      ensures !found ==> Tables() == old(Tables())
    {
      var t := Tables();
      var claimable := set k | k in jobs && Claimable(t, k);
      found, j := claimable != {}, 0;
      if found {
        ghost var oldest := OldestAmong(t, claimable);
        j :| j in claimable && forall k :: k in claimable ==> t.jobs[j].createdAt <= t.jobs[k].createdAt;
        jobs := jobs[j := jobs[j].(
          status := Processing, attempts := jobs[j].attempts + 1, visibleAt := now + VISIBILITY_TIMEOUT_S)];
      } else {
        forall k | k in jobs ensures !Claimable(t, k) {
          assert k !in claimable;
        }
      }
    }

    /** `_reap_exhausted_jobs`' UPDATE. */
    method ReapRows() returns (docs: set<DocId>)
      requires Valid()
      modifies this`jobs
      ensures Valid() && Tables() == ReapExhausted(old(Tables())) && docs == ReapedDocuments(old(Tables()))
    {
      var t := Tables();
      docs := set j | j in jobs && Reapable(t, j) :: jobs[j].doc;
      jobs := map j | j in jobs :: if Reapable(t, j) then jobs[j].(status := Failed) else jobs[j];
    }

    method SetStatus(j: JobId, status: JobStatus)
      requires Valid()
      modifies this`jobs
      ensures Valid() && Tables() == SetJobStatus(old(Tables()), j, status)
    {
      if j in jobs {
        jobs := jobs[j := jobs[j].(status := status)];
      }
    }

    method Requeue(j: JobId)
      requires Valid()
      modifies this`jobs
      ensures Valid() && Tables() == RequeueJob(old(Tables()), j)
    {
      if j in jobs {
        jobs := jobs[j := jobs[j].(status := Queued, visibleAt := now)];
      }
    }

    method MarkReady(d: DocId, chunkCount: nat)
      requires Valid()
      modifies this`documents
      ensures Valid() && Tables() == MarkDocumentReady(old(Tables()), d, chunkCount)
    {
      if d in documents {
        WriteKeepsNames(documents, d, documents[d].(status := Ready, stage := AtDone, chunkCount := chunkCount));
        documents := documents[d := documents[d].(status := Ready, stage := AtDone, chunkCount := chunkCount)];
      }
    }

    method MarkFailed(d: DocId)
      requires Valid()
      modifies this`documents
      ensures Valid() && Tables() == MarkDocumentFailed(old(Tables()), d)
    {
      if d in documents {
        WriteKeepsNames(documents, d, documents[d].(status := Rejected));
        documents := documents[d := documents[d].(status := Rejected)];
      }
    }

    method UpdateStage(d: DocId, stage: Stage)
      requires Valid()
      modifies this`documents
      ensures Valid() && Tables() == UpdateDocumentStage(old(Tables()), d, stage)
    {
      if d in documents {
        WriteKeepsNames(documents, d, documents[d].(stage := stage));
        documents := documents[d := documents[d].(stage := stage)];
      }
    }

    method UpsertDocument(key: Key, pageCount: nat) returns (d: DocId)
      requires Valid()
      modifies this`documents, this`chunks, this`nextDoc
      ensures Valid() && Tables() == Upsert(old(Tables()), key, pageCount)
      ensures d == UpsertTarget(old(Tables()), key) && d in documents
    {
      var taken := set e | e in documents && documents[e].name == key;
      if taken != {} {
        d :| d in taken;
        assert HasName(Tables(), d, key);
        forall e | HasName(Tables(), e, key) ensures e == d {
          assert Named(documents, e, key) && Named(documents, d, key);
        }
        WriteKeepsNames(documents, d, documents[d].(pageCount := pageCount));
        documents := documents[d := documents[d].(pageCount := pageCount)];
      } else {
        forall e ensures !HasName(Tables(), e, key) && !Named(documents, e, key) {
          assert e !in taken;
        }
        d := nextDoc;
        WriteKeepsNames(documents, d, Document(key, Ready, NoStage, pageCount, 0));
        documents := documents[d := Document(key, Ready, NoStage, pageCount, 0)];
        chunks := chunks[d := []];
        nextDoc := nextDoc + 1;
      }
    }

    method DeleteChunks(d: DocId)
      requires Valid()
      modifies this`chunks
      ensures Valid() && Tables() == DeleteRows(old(Tables()), d)
    {
      if d in chunks {
        chunks := chunks[d := []];
      }
    }

    /** One row of `insert_chunks`. */
    method InsertChunk(d: DocId, i: nat, body: ChunkBody)
      requires Valid() && d in documents
      modifies this`chunks
      ensures Valid() && Tables() == Execute(old(Tables()), Statement.InsertChunk(d, i, body))
    {
      chunks := chunks[d := chunks[d] + [Row(i, body)]];
    }
  }
}
