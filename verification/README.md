# A verified model of the document question-answering service

This project models the parts of the service where interleaving, crashes, parsing and
arithmetic decide whether an answer can be trusted, and proves what they promise. Run
`dafny verify dfyconfig.toml` in this directory to check it.

**The ingest queue.** Workers claim jobs from a table with an attempt counter and a
visibility deadline, and may die between any two statements. `JobTables` gives the meaning
of every SQL statement, `WorkerSteps` the step system in which any number of workers,
uploads, deletions, crashes and the clock interleave. `QueueInvariant` and `QueueSafety`
prove what holds in every reachable state under the lease assumption (each attempt ends or
dies within `VISIBILITY_TIMEOUT_S`), `QueueProgress` what holds without it,
`QueueTermination` that the queue drains, `QueueAgreement` exactly when a failed job has a
failed document, and `QueueLimits` what does not hold, why, and exactly when. `Store` is the
database with its in-place updates. `IngestWorker` is `process_job` with the streaming ingest,
the poll around it and the upload as imperative code: from any sound state, with any other
workers alive, each is proved to be a run of the step system.

**The query stream.** `QueryStream` is the step system of `POST /query`: the consumer
coroutine, the producer thread, the queue, time-outs, disconnects, and cuts by the
framework. `QuerySafety` keeps its invariants, `QueryGuarantees` draws the conclusions,
`QueryVerdict` says exactly when the last word is an answer, and `QueryProgress` proves that
a response whose client stays ends.
`QueryHandler` is the two loops as imperative code, proved to be runs of the step system.
`EventStream` is the printer of the frames and the browser's incremental parser, and
`StandardEventStream` is an independent reading of the same text after the WHATWG HTML
Living Standard, sections 9.2.5 and 9.2.6.

**The grounding gate and its numbers.** `Numbers` holds the renderer, the hand-modelled
number pattern and the parser; `NumberRoundTrip` proves that they undo each other. `Gate` is
the layered gate, `GateSafety` says exactly when it passes, `FigureSearch` exactly when it
finds nothing but the figure, and `NumberInText` exactly when a figure that it finds is a
number of the text. `Replay` proves that decisions
replayed from stored records equal the live ones, and `Ablation` covers grading and the
threshold sweep.

**Retrieval and chunking.** `Fusion` and `FusionRanking` are reciprocal rank fusion,
`Retrieval` the two cuts and the rerank around it; `Chunker` and `ProseGroups` are the windows and the paragraph buffer.
`Sorting` is Python's stable sort.

**Quota.** `Throttle` is the token bucket over real time; `QuotaRunner` is the cache, the
guard and the resumable runner over whole histories of invocations. `Basics` holds what
several modules share.

Where code and documentation disagree, the model follows the code:

- `api/routes_query.py:46-49` says that a retrieval margin is never negative; for a single
  result it is that result's score (`Replay.ZeroMarginRejectsOnlyALoneResult`).
- `eval/gate.py:32-35` describes a search for the raw figure; the code also accepts it
  rounded once or twice, so 12.34 is found where the text says only 12
  (`FigureSearch.RoundedFigureIsFound`). Found means written, for every text, exactly if each
  amount searched for is the figure or has one digit (`FigureSearch.FoundIsWrittenExactly`),
  from 9.5 on exactly for whole figures (`FigureSearch.LargeFoundIsWrittenExactly`). The
  amounts are up to 0.505 away for exact reals, a bound attained at 13.495; 13.496, which is
  searched for as 14, comes close to it in binary floating point too
  (`GateSafety.PageCentsAreNoNearer`).
- `eval/gate.py:51` guards against digits beside a figure; a part of a longer number after a
  comma is found all the same (`NumberInText.PartOfANumberIsFound`), as 577 in 1,577
  (`NumberInText.PartOf1577`). `NumberInText.WrittenIsTakenExactly` says for every occurrence
  whether it is a number of the text.
- `api/routes_query.py:149-152` and `tests/test_query_cancellation.py:1-6` say that a client
  that leaves tears down the upstream stream. That holds exactly if the consumer loop sees
  the disconnect (`QueryGuarantees.PromptExactly`); a coroutine dropped at a suspension point
  leaves the flag unset, and the thread may pull on for nobody (`QueryGuarantees.CutPullsOn`).
- `api/worker.py:113-115` says that a job whose blob is missing is not retried; `fail_job`
  requeues it exactly while attempts remain (`IngestWorker.Process.FailJob`), as after the
  first attempt in `QueueLimits.MissingBlobIsRetried`. Once it is dead-lettered its document
  stays `processing` (`QueueLimits.MissingBlobLeavesDocument`); `QueueAgreement.AgreementExactly`
  says exactly when a failed job has a failed document.

Assumptions, each a parameter or a precondition of the results that need it: the lease; one
job for each document, as `api/routes_documents.py:85-86` creates it; embedding is a
function of each text; the reranker is a function that gives one score for each text; JSON
payloads are non-empty and on one line; the UTC clock never runs backwards; invocations of
the runner do not overlap.

## Model

| member | source | states |
|---|---|---|
| `QueueSafety.DoneMeansFullyIngested` | ingest/pipeline.py:65-153 | Over every run under the lease, with any number of workers, crashes at any statement, uploads and deletions: a `done` job has a ready document whose chunk rows are exactly the chunker's output, each once, in order, indexed 0..n-1, with `chunk_count` = n |
| `QueueSafety.RejectedMeansFailed` | api/worker.py:112-124 | Over every run under the lease: the job's document exists, and if it is `failed` then so is the job, at every crash point |
| `QueueSafety.LeaseExclusion` | api/jobs_repo.py:5-10 | Over every run under the lease no two live workers are on the same job |
| `QueueSafety.KeepInv` | api/jobs_repo.py:57-151 | Every step of the system, all 20 kinds, keeps the invariant that the three results rest on |
| `QueueProgress.NoClaimTwice` | api/jobs_repo.py:57-79 | Without any lease assumption: no (job, attempts) pair is ever handed out twice, and attempts never exceeds max_attempts |
| `QueueProgress.ClaimsBounded` | api/jobs_repo.py:69 | Claims in a run, plus the attempts left at its end, are at most the attempts left at its start plus three for each upload |
| `QueueProgress.NoOvertaking` | api/jobs_repo.py:65-73 | While a job waits for its first claim, no job created after it is claimed |
| `QueueProgress.BoundedBypass` | api/jobs_repo.py:65-73 | While a job waits for its first claim, at most the remaining attempts of jobs as old as it are claimed |
| `QueueTermination.StepRank` | api/jobs_repo.py:57-151 | The rank summed over the jobs falls by at least one at every claim, requeue, completion and dead-lettering, and never rises except by 6 at an upload |
| `QueueTermination.QueueRunsDry` | api/jobs_repo.py:57-151 | The number of such moves in a run under the lease is bounded by the rank at its start plus 6 for each upload |
| `QueueTermination.LapsedIsTakenUp` | api/jobs_repo.py:45-56 | Under the lease, an unfinished job whose visibility lapsed has no live worker and is claimable or reapable |
| `QueueTermination.PollMakesProgress` | api/jobs_repo.py:78-103 | One poll of an idle worker claims a job, or finds none and its reaping finishes every lapsed job |
| `QueueLimits.WithoutLeaseAJobIsLost` | api/jobs_repo.py:127-143 | A concrete run without the lease in which the read and the write of `fail_job` come apart and a job is stranded: queued with no attempts left. `StrandedExactly` gives the condition |
| `QueueLimits.StrandedExactly` | api/jobs_repo.py:127-143 | Over every run, no lease assumed: a job is stranded at its end if and only if a `fail_job` write of the run requeued it on a stale reading of its budget when no attempts were left, no later write settled or deleted it, and no live worker is on it |
| `QueueLimits.ExhaustedByStep` | api/jobs_repo.py:127-143 | A step makes a job a queued row without attempts if and only if it is that write: the worker read attempts below the maximum, and the row has none left; and such a row stays one exactly until it is settled or deleted |
| `QueueLimits.StrandedForever` | api/jobs_repo.py:65-69 | A stranded job is stranded in every continuation, leases or not, until its document is deleted |
| `QueueLimits.LeaseStrandsNothing` | api/jobs_repo.py:9-10 | No run under the lease strands a job |
| `QueueLimits.MissingBlobIsRetried` | api/worker.py:112-117 | A concrete run under the lease whose first attempt finds the blob missing, and after which the job is queued again; `IngestWorker.Process.FailJob` gives the condition |
| `QueueLimits.MissingBlobLeavesDocument` | api/worker.py:112-117 | A concrete run under the lease that ends with a `failed` job and a document still `processing`, because the handler of a missing blob never rejects; `QueueAgreement.AgreementExactly` gives the condition |
| `QueueLimits.CrashLeavesDocument` | api/worker.py:118-124 | The same by the other cause: the worker dies between the dead-lettering and the rejection |
| `QueueAgreement.AgreementExactly` | api/worker.py:112-124 | Over every run under the lease: a `failed` job has a `failed` document, or a live worker is about to fail it, if and only if no step of the run abandoned that: `fail_job` for a missing blob out of budget, or the death of the worker that owed it |
| `QueueAgreement.KeepLinked` | api/jobs_repo.py:86-103 | Every step keeps it: at most one worker owes the rejection of a job's document, and a dead-lettered job agrees with its document exactly while nobody abandoned it |
| `Store.Database.ClaimRow` | api/jobs_repo.py:57-79 | The claim takes the oldest claimable row and none exactly if there is none; the whole new state |
| `Store.Database.ReapRows` | api/jobs_repo.py:88-99 | Dead-letters exactly the lapsed rows without attempts left and returns their documents |
| `Store.Database.UpsertDocument` | ingest/db.py:56-67 | The row of that name is updated in place, or a new one made; the whole new state |
| `Store.Database.InsertChunk` | ingest/db.py:83-105 | One row appended under the given index; the whole new state |
| `Store.Database.InsertJob` | api/jobs_repo.py:32-42 | One queued row with no attempts and a fresh id; the whole new state |
| `Store.Database.Delete` | api/documents_repo.py:111-116 | The document goes, and with it its job and its chunk rows; nothing else changes |
| `Store.Database.MarkReady` | api/documents_repo.py:60-70 | Status, stage and count of that document and nothing else, or nothing if the row is gone |
| `IngestWorker.Process.FlushBatch` | ingest/pipeline.py:89-110 | A batch is embedded and inserted from index `written` on; after an exception batch and `written` are as before, and only rows of this batch, a prefix, were inserted |
| `IngestWorker.Process.PullChunks` | ingest/pipeline.py:121-134 | The streamed loop keeps rows and batch together equal to the chunks seen so far; when it ends, all were seen |
| `IngestWorker.Process.IngestPdf` | ingest/pipeline.py:27-153 | If it ends without an exception, every statement of the all-at-once ingest was sent, in order, once, and the reported count is n |
| `IngestWorker.Process.FailJob` | api/jobs_repo.py:114-151 | Requeues exactly if attempts remain, dead-letters otherwise, and does nothing if the row is gone |
| `IngestWorker.Process.ProcessJob` | api/worker.py:73-124 | From any sound state of the system in which the worker has just claimed: it completes if and only if the document exists, the file has at most 500 pages and some text, and nothing was raised; then the job is `done` and its document fully ingested. Otherwise the job is queued again while attempts remain, and else failed, its document rejected unless the blob was missing. Its statements are a run of the step system that leaves all other workers alone |
| `IngestWorker.ClaimOrReap` | api/jobs_repo.py:45-103 | Claims the oldest claimable job, or there was none and every exhausted job is dead-lettered with its document rejected; the returned steps are a run of the step system from any sound state to a sound state, other workers untouched |
| `IngestWorker.PollOnce` | api/worker.py:127-135 | One turn of the worker loop from any sound state, other workers alive: it takes the oldest claimable job, which it completes if and only if the file has at most 500 pages and some text and nothing was raised, and else hands back; a completed job is `done` and fully ingested. The returned steps are a run of the step system, the state after it is sound, the others are where they were |
| `IngestWorker.ClaimedStateIsSound` | api/jobs_repo.py:57-79 | The state right after a claim, anywhere in a run of the whole system under the lease, is one that `process_job` is proved for |
| `IngestWorker.Upload` | api/routes_documents.py:80-86 | An upload makes the document and, unless the request dies in between, its job; the returned steps are a run of the step system from any sound state to a sound state, other workers untouched |
| `EventStream.StreamReader.Read` | web/src/lib/queryStream.ts:80-102 | One network chunk yields exactly the events it completes, and the buffer never holds a complete frame afterwards |
| `EventStream.StreamReader.ReadLines` | web/src/lib/queryStream.ts:92-98 | The field loop computes the name and data of the raw event |
| `EventStream.CutsDoNotMatter` | web/src/lib/queryStream.ts:81-102 | What is yielded and what is left in the buffer depend on the text alone, not on how the network cut it |
| `EventStream.RoundTrip` | api/routes_query.py:65-66 | Any frames with one-line payloads, padding and heartbeats between them, cut anywhere, are parsed to exactly the events sent, in order, leaving nothing |
| `EventStream.RoundTripExactly` | web/src/lib/queryStream.ts:90-99 | The events arrive unchanged if and only if every event has a one-line name and a non-empty one-line payload |
| `EventStream.DroppedConnection` | web/src/lib/queryStream.ts:83 | A connection that drops delivers a prefix of the events, none torn |
| `StandardEventStream.ClientAgreesWithStandard` | web/src/lib/queryStream.ts:76-102 | On everything the server sends, cut anywhere, the client's parser yields what sections 9.2.5 and 9.2.6 of the WHATWG HTML Living Standard prescribe |
| `StandardEventStream.StandardReadsPrinted` | api/routes_query.py:65-66 | The interpretation by the standard of the printed frames is exactly the events sent |
| `QueryGuarantees.FramesFollowTheGrammar` | api/routes_query.py:79-207 | In every reachable state the frames sent are a prefix of: padding, `error done`; or padding, retrieval, then `refusal done` or growing deltas and heartbeats ending in one of error, refusal, answer and `done`; whole if the coroutine ends by itself, before the last word if it saw a disconnect. After an upstream failure the last word is that failure |
| `QueryGuarantees.AnswerIsGated` | api/routes_query.py:154-205 | An answer is sent only if the upstream ended normally, the concatenation of all its deltas parses to that answer and the gate passed it; every citation resolves to the page of a retrieved chunk |
| `QueryVerdict.AnswerExactly` | api/routes_query.py:154-205 | Once the upstream ended normally and the coroutine by itself, the last word is an answer if and only if the whole text parses to one that is sufficient, cites retrieved chunks only, shows its figures in the chunks it cites and has a cited text scoring at least 0 for its prose; it is an error exactly if the text does not parse, and else a refusal |
| `QueryVerdict.SentRefusalIsTrue` | api/routes_query.py:167-175 | A refusal that is sent after the upstream ended gives a reason that is true of the parsed answer and the retrieved chunks |
| `QueryVerdict.LiveGateExactly` | api/routes_query.py:167-170 | The live gate passes exactly what may be sent: layers L2 and L3, without a margin |
| `QueryVerdict.LiveContextIsRetrieved` | api/query_service.py:20-43 | The context of the live gate has the retrieved ids, each with the text and scale of its chunk |
| `QueryVerdict.SearchedIsRetrieved` | api/routes_query.py:88-89 | The retrieval frame lists the retrieved chunks and their pages, in order |
| `QueryGuarantees.RefusalIsTheGates` | api/routes_query.py:171-175 | A refusal other than for an empty retrieval carries the reason the gate gives for the whole upstream text |
| `QueryGuarantees.FailureIsTheProducers` | api/routes_query.py:110-145 | Once the thread runs, an error that is sent has the text of the failure that the producer queued, or it says that the whole upstream text is malformed, after a normal end |
| `QueryGuarantees.HeartbeatsArePaced` | api/routes_query.py:133-137 | Any two heartbeats are sent more than 15 seconds apart, and the first more than 15 seconds after the start; so at most one for each 15 seconds since then |
| `QueryGuarantees.StreamIsClosedOnce` | eval/gemini_client.py:103-115 | In every interleaving an opened upstream stream is closed at most once, and exactly once when the thread is done |
| `QueryGuarantees.StopIsPrompt` | eval/gemini_client.py:104-108 | After the stop flag is set, in every continuation at most one more chunk is pulled, at most one more delta is queued, and nothing is sent |
| `QueryGuarantees.StopIsSeenDisconnect` | api/routes_query.py:126-130 | In every reachable state the flag is set if and only if the loop has seen the disconnect |
| `QueryGuarantees.PromptExactly` | eval/gemini_client.py:103-109 | In every reachable state in which the stream is being read: at most one more chunk is pulled in every continuation if and only if the loop has seen the disconnect |
| `QueryGuarantees.CutNeverStops` | api/routes_query.py:126-130 | No continuation of a run in which the framework dropped the coroutine sets the flag |
| `QueryGuarantees.UnstoppedPullsOn` | api/routes_query.py:106-117 | While the flag is not set the thread may pull and queue any number of further non-empty deltas |
| `QueryGuarantees.CutPullsOn` | api/routes_query.py:106-130 | For every non-empty retrieval there is a run from the start in which the framework drops the coroutine while the stream is open, and after which any number of further deltas is pulled and queued |
| `QueryGuarantees.ClientSeesWhatWasSent` | web/src/lib/queryStream.ts:76-102 | However the network cuts the printed messages, the client yields exactly those messages in order, each under its own event name |
| `QueryGuarantees.ClientSeesOneLastWord` | api/routes_query.py:143-207 | A response that ends by itself shows the client exactly one of error, refusal and answer, last before `done`: the one that was sent, under its name |
| `QueryProgress.EveryResponseEnds` | api/routes_query.py:126-207 | From every reachable state with the thread done and the coroutine not stopped from outside: its own steps are bounded by a measure of queue and phase, one is possible until it has finished by itself, and then `done` was sent last |
| `QueryProgress.EndIsQueued` | api/routes_query.py:116-117 | In every reachable state of the loop with the thread done, the queue is not empty, its last item is the end of the stream, and no other is |
| `QuerySafety.KeepInv` | api/routes_query.py:106-207 | Every step of producer, queue, consumer and framework keeps the invariants on frames, text, upstream stream and heartbeats |
| `QuerySafety.TakeFirst` | api/routes_query.py:131-147 | What the consumer takes from the queue first says whether the producer failed, and with what text, or ended normally |
| `QuerySafety.ProducerKeepsText` | eval/gemini_client.py:104-109 | Text consumed, queued and in the producer's hand always adds up to what was pulled |
| `QueryHandler.Coroutine.Turn` | api/routes_query.py:126-147 | One turn of the consumer loop, with any steps of the thread in between, sends nothing, a heartbeat, or the delta it took and added to the text; or it leaves the loop |
| `QueryHandler.Coroutine.TimedOut` | api/routes_query.py:133-137 | After a wait that timed out, a heartbeat is sent if and only if the last one is more than 15 seconds ago |
| `QueryHandler.Coroutine.Judge` | api/routes_query.py:154-205 | The branches after the loop compute the last word: malformed, refused for the gate's reason, or answered with the page of each citation |
| `QueryHandler.Coroutine.Respond` | api/routes_query.py:79-207 | The whole coroutine is a run of the step system; what it sent is whole if it ended by itself, a body if it saw a disconnect, and always a prefix of a proper response |
| `QueryHandler.WorkerThread.PullOne` | eval/gemini_client.py:104-109 | After a pull the flag decides: if it is set, which it is if it was before, nothing is queued and the stream is left; if not, a non-empty chunk is queued last, and no other delta |
| `QueryHandler.WorkerThread.Work` | api/routes_query.py:106-117 | The thread pulls a prefix of the upstream chunks, all of them if it ended normally, closes the stream exactly if it opened it, and leaves the end as the last item of the queue |
| `Numbers.NormalizeNumericAnswer` | eval/normalize.py:50-90 | The method that updates scale and value step by step computes the specified normalization |
| `Numbers.MatchIsWithinOnePercent` | eval/normalize.py:93-98 | Two numbers match exactly if they differ by at most one percent of one of them, or by next to nothing, symmetrically |
| `NumberRoundTrip.RenderedAmountIsRead` | eval/normalize.py:69-90 | Any amount of cents, rendered with or without commas and put into a text without other digits, is the one number found there and is read back exactly |
| `NumberRoundTrip.NormalizeRendering` | eval/gate.py:41 | The two-decimal rendering with trailing zeros stripped, grouped or not, of any amount of cents normalizes to that amount as non-percent |
| `NumberRoundTrip.ParenthesisedAmountIsNegated` | eval/normalize.py:78-85 | The parenthesised rendering of a non-negative amount is read as its negation |
| `NumberRoundTrip.ScaledAmountIsRead` | eval/normalize.py:62-67 | An amount followed by a scale word, in whatever case, is read as the amount times 1000, a million, a billion or a trillion, whichever the word says |
| `NumberRoundTrip.PercentageIsNotScaled` | eval/normalize.py:58-88 | With a percent sign anywhere around it an amount is read unscaled, as a percentage, whatever scale words there are |
| `NumberRoundTrip.MultiplierIsPower` | eval/normalize.py:36-48 | The same words, in whatever case, divide the figures of a page by the same powers of ten; no scale divides by 1 |
| `NumberRoundTrip.GroupShape` | eval/gate.py:41-43 | Grouped digits start and end with a digit, and removing the commas gives the digits back |
| `NumberRoundTrip.MatchRendering` | eval/normalize.py:26 | The number pattern matches a rendering exactly, whatever non-number follows |
| `Gate.ValueFoundInText` | eval/gate.py:31-54 | The set-filling and searching loops decide exactly whether some variant with two or more digits occurs with no digit on either side |
| `Gate.Round` | eval/gate.py:38 | Rounding is to a nearest whole number, ties to even |
| `GateSafety.VariantsAreRenderings` | eval/gate.py:38-46 | The texts searched for are exactly the renderings, grouped and not, of three amounts: the figure in cents, rounded to a whole, and rounded twice |
| `GateSafety.PageCentsAreNear` | eval/gate.py:38 | Every amount searched for is within 0.505 of the unscaled figure |
| `GateSafety.PageCentsAreNoNearer` | eval/gate.py:38-44 | No smaller bound holds: 13.496, and every amount from 13.495 to 13.5, is searched for as 14 |
| `GateSafety.ValueFoundExactly` | eval/gate.py:31-54 | A figure is found exactly if the text shows, undivided by digits, a rendering that alone normalizes to an amount within 0.505 of it |
| `GateSafety.OccursUndivided` | eval/gate.py:51 | The search finds a text exactly where it stands with no digit right before or after it |
| `GateSafety.NearFiguresMatch` | eval/normalize.py:93-98 | For figures of 50.5 or more, every amount that is searched for, times the multiplier of the scale, matches the value to within the one percent of numbers_match |
| `FigureSearch.FoundIsWrittenExactly` | eval/gate.py:31-54 | Whatever the text, a found figure is written in it undivided by digits, if and only if each of the three amounts searched for is the figure itself or whole and of one digit |
| `FigureSearch.LargeFoundIsWrittenExactly` | eval/gate.py:38 | For figures of 9.5 or more: exactly if the figure is whole |
| `FigureSearch.WholeIsSearchedAlone` | eval/gate.py:38 | No amount but the figure is searched for exactly if the figure is whole |
| `FigureSearch.RoundedFigureIsFound` | eval/gate.py:38-46 | 12.34 is found in the text 12, which does not write it |
| `FigureSearch.WrittenIsFoundExactly` | eval/gate.py:32-52 | A figure of whole cents that the page writes in full, with no digit beside it, is found in whatever scale if and only if it is not whole and of one digit |
| `FigureSearch.DigitsOfRendering` | eval/gate.py:41-49 | A rendering has two digits or more exactly unless its amount is whole and of one digit |
| `GateSafety.WrittenFigureIsFound` | eval/gate.py:32-35 | Any amount of two or more digits that the page writes in full is found, for every scale |
| `NumberInText.WrittenIsTakenExactly` | eval/normalize.py:26 | For every text and every occurrence of a rendering in it: the number pattern takes it whole there, denoting exactly its amount, if and only if it stands alone: nothing of a number is read right before it, unless it brings its own minus, and the next character does not go on with it |
| `NumberInText.LeftIsFree` | eval/normalize.py:26 | The left condition told from the character before: no digit, minus or opening parenthesis, and a comma or point only if it does not follow a whole part |
| `NumberInText.FoundIsStatedExactly` | eval/gate.py:48-52 | A found figure is a number of the text if and only if one of its occurrences stands alone |
| `NumberInText.ArrivesExactly` | eval/normalize.py:69 | The left-to-right scan comes to a digit as the start of a match if and only if a reader of one character at a time has nothing of a number pending there; to a minus, always |
| `NumberInText.FoundAreTaken` | eval/normalize.py:69 | The texts that `findall` lists are exactly those taken at some place |
| `NumberInText.PartOfANumberIsFound` | eval/gate.py:51 | What a longer number goes on with after a comma is found by the gate under every scale, unless whole and of one digit, though the scanner does not take it: the digit bounds do not see commas |
| `NumberInText.PartOf1577` | eval/gate.py:51 | 577 is found in the text 1,577, where the scanner does not take it |
| `GateSafety.SingleDigitIsNeverFound` | eval/gate.py:48-50 | A whole figure of one digit is found in no text |
| `GateSafety.GatePassesExactly` | eval/gate.py:57-183 | For every set of layers and thresholds the gate passes if and only if: L1 the margin reaches its threshold; L2 the answer is sufficient and cites retrieved chunks only; L3 every operand is shown by its own cited chunk, or without operands some cited chunk shows the value, and some cited text scores high enough for the prose |
| `GateSafety.RefusalIsJustified` | eval/gate.py:57-183 | Whatever reason the gate gives is true, for every set of layers: the cited ids that were not retrieved, an operand that its chunk does not show, a value that no cited chunk shows, the best score of the cited texts and its threshold, and so on |
| `GateSafety.FiguresPassExactly` | eval/gate.py:75-108 | The numeric check passes exactly if the figures are shown by cited chunks |
| `GateSafety.ProsePassesExactly` | eval/gate.py:111-133 | The prose check passes exactly if there is no prose or a cited text scores at least the threshold |
| `GateSafety.CitedTextsInOrder` | eval/gate.py:118-124 | The prose is scored against the known texts of the citations, in order |
| `GateSafety.StricterNeverPassesMore` | eval/gate.py:136-183 | More layers or higher thresholds never turn a refusal into a pass |
| `Replay.ReplayEqualsLive` | eval/runner_v2.py:108-127 | The decision from the stored record equals the live decision over the full retrieval, reason included, if and only if L1 is off or something was retrieved |
| `Replay.GateReadsCitedOnly` | eval/gate.py:57-133 | Two contexts that agree on the cited chunks and on the retrieved ids get the same verdict and reason |
| `Replay.EntriesAreRead` | eval/ablation.py:50-51 | Integer keys printed to JSON strings and read back give exactly the listed entries |
| `Replay.ZeroMarginRejectsOnlyALoneResult` | api/routes_query.py:46-49 | Against the comment there: a zero margin threshold rejects exactly a single result with a negative score |
| `Ablation.SummaryIsConsistent` | eval/ablation.py:89-103 | Coverage and accuracy are rates, and overall accuracy is their product |
| `Ablation.StricterCoversLess` | eval/ablation.py:158-192 | Coverage, and with it the hallucination rate, never rises with the threshold or with more layers |
| `Ablation.FirstPointIsPlain` | eval/ablation.py:165 | At the first threshold the sweep decides as plain L2+L3 on every record with scores, and refuses every record without, at any threshold |
| `Ablation.ThresholdsAreMargins` | eval/ablation.py:156-165 | The thresholds are exactly the margins of the records that have scores, after one that is 1e-6 below the least |
| `Ablation.AreaUnder` | eval/ablation.py:194-200 | The loop over the sorted points computes the trapezoid area |
| `Ablation.Aurc` | eval/ablation.py:167-205 | The area under the risk-coverage points, which is between 0 and 1; each point is the share of the questions answered at its threshold, and the share of these that is answered wrongly |
| `Ablation.HallucinationArea` | eval/ablation.py:182-214 | Each rate is the share of a negative tier that is answered at its threshold; the rates never rise, and the area lies between the lower and upper step sums and is half their sum |
| `Ablation.BetweenStepSums` | eval/ablation.py:194-200 | For any falling points the trapezoid area is the mean of the step sums |
| `Ablation.AreaBounds` | eval/ablation.py:194-200 | Under rates, the area over an ascending x is between 0 and the width |
| `Fusion.RrfFuse` | ingest/retrieval.py:69-79 | The two dicts filled in nested loops compute the fused ranking for any lists, repeats included |
| `FusionRanking.FusedIsRankedUnion` | ingest/retrieval.py:69-79 | The result is exactly the ids of the lists, each once, with its fused score, the highest first |
| `FusionRanking.TiesKeepFirstSeenOrder` | ingest/retrieval.py:78 | Chunks with equal scores stay in the order of their first appearance |
| `FusionRanking.SharedBeatsSingle` | ingest/retrieval.py:72-76 | With two lists without repeats and no longer than k+1, a chunk in both scores strictly above every chunk in one |
| `FusionRanking.LongerListsOnlyTie` | ingest/retrieval.py:76 | For every k there are lists of length k+2 where a shared chunk only ties with a single one: the bound is exact |
| `FusionRanking.CutKeepsSharedFirst` | ingest/retrieval.py:98-100 | No cut of the fused list keeps a single-list chunk and drops a shared one |
| `FusionRanking.AheadInBothStaysAhead` | ingest/retrieval.py:74-78 | A chunk ahead of another in both lists is ahead in the result |
| `Retrieval.RetrievedAreTheBest` | ingest/retrieval.py:101-108 | Of the candidates left by the cut, those returned are the best by the reranker, each once, best first |
| `Retrieval.RetrievalIsTwoCuts` | ingest/retrieval.py:98-108 | What the retrieval returns, told from the two searches and the reranker: all that either search found, ranked by its fused score with k = 60 and cut; each text left scored by the reranker, the best first, and cut again |
| `Retrieval.RetrievedWereFound` | ingest/retrieval.py:98-108 | Every chunk returned was found by a search; with cuts no shorter than all that was found, exactly that is returned |
| `Retrieval.LeftOutLostACut` | ingest/retrieval.py:100-108 | A found chunk that is not returned lost a cut: as many found chunks as the first cut keeps have no lower fused score, or all that the second returns have no lower reranker score |
| `Sorting.SortByIsSorted` | ingest/retrieval.py:78 | The sort is an ascending permutation |
| `Sorting.SortByIsStable` | ingest/retrieval.py:107 | The sort keeps the order of equal keys |
| `Chunker.NearestHeader` | ingest/chunker.py:104-111 | The lowest header between -1 (exclusive) and y, the first of level ones, and none exactly if there is none |
| `Chunker.SplitProse` | ingest/chunker.py:140-151 | The loop yields the specified pieces |
| `Chunker.WindowsMarch` | ingest/chunker.py:144-150 | Windows are non-empty, at most 1600 long, one step of 1400 apart; successive ones overlap by exactly 200 and reach further; the last ends the text |
| `Chunker.WindowsReassemble` | ingest/chunker.py:144-150 | The windows without their overlaps put together are the text |
| `Chunker.NothingButBlanksIsLost` | ingest/chunker.py:147-148 | Every non-whitespace character of the text is in a piece, at its place |
| `Chunker.PiecesAreShort` | ingest/chunker.py:141-148 | Every piece is a part of the text and at most 1600 characters |
| `ProseGroups.ProseBuffer.Add` | ingest/chunker.py:268-283 | One turn of the paragraph loop extends the held group exactly if the paragraph fits, and otherwise flushes it |
| `ProseGroups.ProseBuffer.Flush` | ingest/chunker.py:238-266 | Flushing emits the chunks of the held group and empties the buffer |
| `ProseGroups.GroupIsChunked` | ingest/chunker.py:238-266 | Each piece of a group becomes one chunk, in order, of the group's box; its text is the header, a blank line and the piece, or the piece if there is no header |
| `ProseGroups.LineBreaksOff` | ingest/chunker.py:242 | In the joined text of a group there is exactly one line break between two paragraphs |
| `ProseGroups.ChunkPage` | ingest/chunker.py:233-284 | A page's prose chunks are those of its groups, in order |
| `ProseGroups.GroupsAreGrouping` | ingest/chunker.py:268-284 | The groups concatenate to the page's paragraphs, share one header each, keep the budget unless a single paragraph, and none could have taken in the next paragraph |
| `ProseGroups.GroupingIsUnique` | ingest/chunker.py:277-278 | No other grouping has these properties |
| `ProseGroups.UnionIsLeast` | ingest/chunker.py:246-251 | The union box contains every paragraph of the group and is contained in every box that does |
| `ProseGroups.NothingOnThePageIsLost` | ingest/chunker.py:231-284 | Every character of every paragraph other than whitespace and the NULs that `_clean` removes is in the text of a chunk of the page, at its place less the NULs, under the paragraph's header, with a box around its box |
| `Throttle.TokenBucket.RefillNow` | eval/quota_guard.py:65-68 | Refilling keeps the tokens within 0 and rpm and the bound on every span of acquisitions |
| `Throttle.TokenBucket.Acquire` | eval/quota_guard.py:63-72 | Takes one token and returns after at most ceil(12/rpm) sleeps, whatever the clock does beyond sleeping long enough |
| `Throttle.NapHelps` | eval/quota_guard.py:72 | After a sleep there is a token or one sleep less to go |
| `Throttle.NapIsShort` | eval/quota_guard.py:72 | A sleep lasts as long as the missing part of a token takes, or five seconds, whichever is shorter |
| `Throttle.TakesAreBounded` | eval/quota_guard.py:63-72 | Over any visits at any times, tokens stay between 0 and rpm, and the tokens taken are at most those held at the start and those the time earned |
| `Throttle.WindowBound` | eval/quota_guard.py:54-72 | Acquisitions that fall into a window of w seconds number at most rpm + w*rpm/60 |
| `Throttle.AcquiresOnlyIfOnePerMinute` | eval/quota_guard.py:67-69 | The bucket can ever hold a token if and only if the rate is at least one per minute |
| `QuotaRunner.KeysDiffer` | eval/cache.py:70-72 | With a one-line model name, keys agree exactly if prompt, model and parameters do |
| `QuotaRunner.KeysCollide` | eval/cache.py:70-72 | With a line break in the model name, requests that differ in model, parameters and prompt share a key |
| `QuotaRunner.KeysAreSharedExactly` | eval/cache.py:70-72 | Two model names can share a key, with one-line parameters, if and only if one is the other, a line break, and perhaps more |
| `QuotaRunner.LineBreakSharesExactly` | eval/cache.py:70-72 | A model name can share a key with another name on one line if and only if it has a line break |
| `QuotaRunner.LogKeepsBudget` | eval/quota_guard.py:94-148 | A call that passed the check on one day may be logged on that or any later day without any day exceeding the budget |
| `QuotaRunner.DayIsLong` | eval/quota_guard.py:91-95 | A day is 86400 seconds from its start on |
| `QuotaRunner.QuotaGuard.Call` | eval/quota_guard.py:97-148 | Unless the process dies: a dry run plans; otherwise it stops only if max_calls is reached or on a day with as many logged successes as the daily budget, and else sends at least one request and at most seven, until the API replies or gives up; exactly one row is logged, saying which. It keeps the budget and returns only what the API replied |
| `QuotaRunner.QuotaGuard.CheckCaps` | eval/quota_guard.py:97-122 | The caps stop a call exactly where they say: max_calls, or the successes logged on the day of the check |
| `QuotaRunner.QuotaGuard.BackOff` | eval/quota_guard.py:133-142 | After a 429 it sleeps as long as the API asked, or two to the power of the attempt seconds, and up to a quarter more, and never more than a minute |
| `QuotaRunner.Process` | eval/runner.py:153-187 | A question with a result changes nothing; a cached prompt is answered from the cache and not sent; any other is sent at least once, unless it is a dry run, a cap is reached or the process dies |
| `QuotaRunner.Invoke` | eval/runner.py:113-193 | Logged successes of one invocation are at most max_calls; it ends out of quota only with max_calls of them or on a day that is full, and fails only after the API gave up; a finished one has a result for every question; with all results there, nothing is sent or written |
| `QuotaRunner.Campaign` | eval/quota_guard.py:116-122 | For any sequence of invocations, each cut short anywhere: no UTC day exceeds the budget, nothing is sent after its result was recorded, and the cache holds only what the API replied |
| `QuotaRunner.RecordKeepsHistory` | eval/cache.py:148-184 | Recording a reply keeps the history free of repeats and the cache genuine |

## Left out

- Lost acknowledgements: a statement that fails is taken to have had no effect, and one that
  was committed is taken to be reported.
- IngestWorker.Process.ProcessJob: other workers, uploads and the clock stand still while it
  runs. Each of its statements is one step of the step system, and what holds when all of them
  interleave is proved there.
- Row locks and `SKIP LOCKED`: a claim is one atomic step, and concurrent claimants are
  serialized.
- Deletion of a document between the existence check and the upsert is in the step system;
  the unowned row that the upsert then makes belongs to no job, and nothing is claimed about it.
- QueryHandler.Coroutine.Respond: a response that would never end is cut after any number of
  turns, as by a server that stops.
- QueryProgress.EveryResponseEnds: is about the steps the coroutine takes once the thread is
  done; a thread whose upstream never ends keeps it waiting.
- QueryStream.Apply: `call_soon_threadsafe` puts at once, and an exception inside it is not
  modelled.
- QueryGuarantees.StreamIsClosedOnce: says nothing about a pull that never returns.
- QuotaRunner.Invoke: needs a rate of at least one call per minute; below that `acquire` never
  returns (`Throttle.AcquiresOnlyIfOnePerMinute`).
- QuotaRunner.Campaign: counts logged successes, as the guard does; requests answered by 429 or
  an error are bounded by seven for each call and one call more, not by the daily budget.
- QuotaRunner.KeysDiffer: is about the text that is hashed; SHA-256 is taken to have no collisions.
- Numbers.Render: `-0.00`, which only a negative figure that rounds to zero gives; it has one
  digit, so the gate never searches for it.
- Floating point: amounts, scores, margins, times and areas are exact reals, and rounding is to
  even on exact ties.
- Unicode digits, whitespace and case: only ASCII ones are known. Decoding of UTF-8 by the
  browser, and JSON beyond non-empty one-line text.
- `int` on keys that JSON did not print (spaces, underscores, a plus sign).
- The scale, currency and note detected around tables, tables as Markdown, header extraction and
  the overlap test between paragraphs and tables: text and geometry from PyMuPDF.
- Table chunks, excluded pages and the page loop around the prose of one page.
- Throttling of progress writes to one per 0.35 s: a progress write may happen at any time.
- The order in which `_reap_exhausted_jobs` rejects documents, and the texts of error messages.
- Dense and sparse search, embedding, reranking, Gemini, object storage and telemetry.
- Sessions, CSRF, upload limits, queue depth, blob storage, routes and schemas.
- The command lines, reports and plots of the evaluation, the selection of served documents, and
  the loop of `eval/runner_v2.py`, which is the loop of `eval/runner.py` with another call.
- The React interface, PDF display, dataset download and load scripts.
