/** The tables of the ingest queue (db/schema.sql) and, for every SQL statement that
    api/jobs_repo.py, api/documents_repo.py and ingest/db.py send, the function that
    says what the statement does to them. Connections are autocommit, so one
    statement is one atomic change. */
module JobTables {

  type JobId = nat
  type DocId = nat
  type Key = string

  const VISIBILITY_TIMEOUT_S := 600.0
  const DEFAULT_MAX_ATTEMPTS := 3
  const MAX_PAGE_COUNT := 500

  /** A chunk together with its embedding: embedding is a function of the text. */
  datatype ChunkBody = ChunkBody(text: string, embedding: seq<real>)

  datatype Row = Row(index: nat, body: ChunkBody)

  /** What the blob behind a storage key parses to. `hasText` is false for a scanned
      file, on which the chunker raises once it has walked the whole document. */
  datatype Pdf = Pdf(pageCount: nat, hasText: bool, chunks: seq<ChunkBody>)

  datatype JobStatus = Queued | Processing | Done | Failed

  datatype Job = Job(
    doc: DocId, key: Key, pdf: Pdf, status: JobStatus,
    attempts: nat, maxAttempts: nat, visibleAt: real, createdAt: real)

  datatype DocStatus = InProgress | Ready | Rejected

  datatype Stage = NoStage | AtQueued | AtReading | AtChunking | AtEmbedding | AtIndexing | AtDone

  datatype Document = Document(name: Key, status: DocStatus, stage: Stage, pageCount: nat, chunkCount: nat)

  datatype Tables = Tables(
    now: real,
    jobs: map<JobId, Job>,
    documents: map<DocId, Document>,
    chunks: map<DocId, seq<Row>>,
    nextJob: JobId,
    nextDoc: DocId)

  const EmptyTables := Tables(0.0, map[], map[], map[], 0, 0)

  function RowsOf(t: Tables, d: DocId): seq<Row> {
    if d in t.chunks then t.chunks[d] else []
  }

  // ----- api/jobs_repo.py -----

  function EnqueueJob(t: Tables, d: DocId, key: Key, pdf: Pdf): Tables {
    t.(jobs := t.jobs[t.nextJob := Job(d, key, pdf, Queued, 0, DEFAULT_MAX_ATTEMPTS, t.now, t.now)],
       nextJob := t.nextJob + 1)
  }

  predicate Claimable(t: Tables, j: JobId) {
    && j in t.jobs
    && (t.jobs[j].status.Queued? || (t.jobs[j].status.Processing? && t.jobs[j].visibleAt < t.now))
    && t.jobs[j].attempts < t.jobs[j].maxAttempts
  }

  /** The row that `ORDER BY created_at LIMIT 1` may return. */
  predicate OldestClaimable(t: Tables, j: JobId) {
    && Claimable(t, j)
    && forall k :: k in t.jobs && Claimable(t, k) ==> t.jobs[j].createdAt <= t.jobs[k].createdAt
  }

  function ClaimJob(t: Tables, j: JobId): Tables
    requires j in t.jobs
  {
    t.(jobs := t.jobs[j := t.jobs[j].(
      status := Processing,
      attempts := t.jobs[j].attempts + 1,
      visibleAt := t.now + VISIBILITY_TIMEOUT_S)])
  }

  predicate Reapable(t: Tables, j: JobId) {
    && j in t.jobs
    && t.jobs[j].status.Processing?
    && t.jobs[j].visibleAt < t.now
    && t.jobs[j].maxAttempts <= t.jobs[j].attempts
  }

  function ReapExhausted(t: Tables): Tables {
    t.(jobs := map j | j in t.jobs :: if Reapable(t, j) then t.jobs[j].(status := Failed) else t.jobs[j])
  }

  /** The documents whose jobs the reaping statement returns. */
  function ReapedDocuments(t: Tables): set<DocId> {
    set j | j in t.jobs && Reapable(t, j) :: t.jobs[j].doc
  }

  function SetJobStatus(t: Tables, j: JobId, status: JobStatus): Tables {
    if j in t.jobs then t.(jobs := t.jobs[j := t.jobs[j].(status := status)]) else t
  }

  function CompleteJob(t: Tables, j: JobId): Tables {
    SetJobStatus(t, j, Done)
  }

  function RequeueJob(t: Tables, j: JobId): Tables {
    if j in t.jobs
    then t.(jobs := t.jobs[j := t.jobs[j].(status := Queued, visibleAt := t.now)])
    else t
  }

  /** The write of `fail_job`, decided by the budget that its SELECT read earlier. */
  function RecordFailure(t: Tables, j: JobId, attempts: nat, maxAttempts: nat): Tables {
    if attempts < maxAttempts then RequeueJob(t, j) else SetJobStatus(t, j, Failed)
  }

  /** Of some jobs, one was created first. */
  lemma OldestAmong(t: Tables, js: set<JobId>) returns (j: JobId)
    requires js != {} && js <= t.jobs.Keys
    ensures j in js && forall k :: k in js ==> t.jobs[j].createdAt <= t.jobs[k].createdAt
    decreases |js|
  {
    j :| j in js;
    if js != {j} {
      var k := OldestAmong(t, js - {j});
      if t.jobs[k].createdAt < t.jobs[j].createdAt { j := k; }
    }
  }

  // ----- api/documents_repo.py -----

  function CreatePendingDocument(t: Tables, key: Key): Tables {
    t.(documents := t.documents[t.nextDoc := Document(key, InProgress, AtQueued, 0, 0)],
       chunks := t.chunks[t.nextDoc := []],
       nextDoc := t.nextDoc + 1)
  }

  function UpdateDocumentStage(t: Tables, d: DocId, stage: Stage): Tables {
    if d in t.documents
    then t.(documents := t.documents[d := t.documents[d].(stage := stage)])
    else t
  }

  function MarkDocumentReady(t: Tables, d: DocId, chunkCount: nat): Tables {
    if d in t.documents
    then t.(documents := t.documents[d := t.documents[d].(status := Ready, stage := AtDone, chunkCount := chunkCount)])
    else t
  }

  function MarkDocumentFailed(t: Tables, d: DocId): Tables {
    if d in t.documents
    then t.(documents := t.documents[d := t.documents[d].(status := Rejected)])
    else t
  }

  /** Deleting a document cascades to its job and its chunk rows. */
  function DeleteDocument(t: Tables, d: DocId): Tables {
    t.(documents := t.documents - {d},
       chunks := t.chunks - {d},
       jobs := map j | j in t.jobs && t.jobs[j].doc != d :: t.jobs[j])
  }

  // ----- ingest/db.py -----

  datatype Statement =
    | UpsertDocument(key: Key, pageCount: nat)
    | DeleteChunks(doc: DocId)
    | InsertChunk(doc: DocId, index: nat, body: ChunkBody)

  predicate HasName(t: Tables, d: DocId, key: Key) {
    d in t.documents && t.documents[d].name == key
  }

  predicate NameTaken(t: Tables, key: Key) {
    exists d :: d in t.documents && HasName(t, d, key)
  }

  /** The id that the upsert returns; `doc_name` is UNIQUE. */
  ghost function UpsertTarget(t: Tables, key: Key): DocId {
    if NameTaken(t, key) then var d :| d in t.documents && HasName(t, d, key); d else t.nextDoc
  }

  ghost function Upsert(t: Tables, key: Key, pageCount: nat): Tables {
    var d := UpsertTarget(t, key);
    if NameTaken(t, key)
    then t.(documents := t.documents[d := t.documents[d].(pageCount := pageCount)])
    else t.(documents := t.documents[d := Document(key, Ready, NoStage, pageCount, 0)],
            chunks := t.chunks[d := []],
            nextDoc := t.nextDoc + 1)
  }

  function DeleteRows(t: Tables, d: DocId): Tables {
    if d in t.chunks then t.(chunks := t.chunks[d := []]) else t
  }

  /** An insert whose document is gone violates the foreign key and raises. */
  predicate Raises(t: Tables, s: Statement) {
    s.InsertChunk? && s.doc !in t.documents
  }

  ghost function Execute(t: Tables, s: Statement): Tables {
    match s
    case UpsertDocument(key, pageCount) => Upsert(t, key, pageCount)
    case DeleteChunks(d) => DeleteRows(t, d)
    case InsertChunk(d, i, body) =>
      if d in t.documents then t.(chunks := t.chunks[d := RowsOf(t, d) + [Row(i, body)]]) else t
  }

  // ----- ingest/pipeline.py, as the statements it sends -----

  /** All at once: one row per chunk, numbered from zero. */
  function RowsFor(bodies: seq<ChunkBody>): (rows: seq<Row>)
    ensures |rows| == |bodies|
  {
    seq(|bodies|, i requires 0 <= i < |bodies| => Row(i, bodies[i]))
  }

  /** The statements of one ingest into document d. */
  function IngestProgram(key: Key, pdf: Pdf, d: DocId): (program: seq<Statement>)
    ensures |program| == |pdf.chunks| + 2
  {
    [UpsertDocument(key, pdf.pageCount), DeleteChunks(d)]
    + seq(|pdf.chunks|, i requires 0 <= i < |pdf.chunks| => InsertChunk(d, i, pdf.chunks[i]))
  }
}
