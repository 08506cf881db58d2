# IncidentOps in Dafny

A model of the parts of IncidentOps that hold state or arithmetic, with proofs of what they
guarantee. Nothing in it was executed: all results are proofs about the model.

`dafny verify dfyconfig.toml` checks the project.

## The system

**Asynchronous indexing.** A document upload creates index-job rows; a dispatcher claims due rows
and publishes their ids on a Redis stream; workers read the stream, execute the jobs under a row
lock and acknowledge the messages. `JobStream` has the queue objects and message handling,
`IndexJobs` the row and its execution, `IndexDispatch` the dispatcher. `WorkerProtocol` puts them
into one state machine in which every database transaction and every queue command is a step and
processes may stop between any two steps; `WorkerGuarantees`, `WorkerRecovery` and `WorkerOutcomes`
prove what holds in every run. The dispatcher's method is proved to be a run of the state machine, and in
`WorkerMessages` so are taking a message and answering it.

**The two-store index.** `TwoStoreIndex` interleaves any number of indexing transactions with
vector-store calls that take effect late, even after a rollback, or never. `BatchIndexing` is one
batch in one transaction, `BatchReports` what its report says about the store. `Text`, `Segmentation` and `FallbackPacker` have the splitting of
over-long texts and the fallback that packs a document line by line, `FallbackStorage` what it
stores.

**Embedding and caches.** `EmbeddingBatcher` runs the request coalescer under every interleaving of
callers, window task and provider. `EmbeddingCache` and `ProjectCache` are the two caches.

**Loops over data.** `RateLimit`, `RankFusion`, `LogBursts`, `CollectorBatching`,
`EvidencePacker` and `EvidenceContents` prove the imperative loops against simple specifications.

Most operations exist twice: as a method or a class in the form of the source, and as a function of
the old state. The method's contract ties the two together; runs and lemmas use the function.

## What the proofs found

- A failed job is not at rest: it runs again if a duplicate message arrives with attempts left.
- An execution that times out is rolled back with its attempt, so timeouts never exhaust the limit.
- With a retry limit below 1 no job is ever dispatched.
- A replacement that fails after the old vectors were removed leaves the old row, and its unchanged
  hash makes every later upload of that content skip it: the vectors stay lost until the content
  changes. An embedding of the wrong dimension is enough.
- The fallback packer needs at most twice its target chunk count, and loses text when a blank
  stretch is followed by an oversized line. Such a document is accepted without an error, with part
  of its words or with no chunk at all, and later uploads of it are skipped.
- A request that arrives while the window task waits for the provider may arm nobody, and then
  waits until another request arrives.
- If the caller that flushes a batch is cancelled during the provider call, the other callers of the
  batch wait for ever; callers wait for ever in no other swapped-out batch whose call has ended.
- An unfinished job without an open execution can be completed by workers of its own index version
  only; one of another version that executes it marks it stale.
- A packed evidence text can be three characters over its limit, not two, in one exact situation; at
  most one text of the evidence is.
- A cache reader that overlaps an invalidation may still return the old payload.

## Model

| member | source | states |
|---|---|---|
| WorkerProtocol.RunKeepsInv | incidentops/worker/main.py:26-77 | Every run of clients, dispatchers and workers, with crashes, lost and duplicated messages and arbitrary timing, keeps the protocol invariant: rows, row locks, deliveries, stream and the reason for every acknowledgement |
| WorkerProtocol.StepKeepsInv | incidentops/worker/main.py:49-77 | Each single step of the protocol keeps that invariant |
| WorkerProtocol.StepKeepsJobs | incidentops/worker/jobs.py:250-292 | Locks, row statuses and attempt counts stay consistent under every step: a lock is held exactly by the open execution, whose working copy is the committed row with one more attempt |
| WorkerProtocol.StepKeepsStream | incidentops/worker/queue.py:92-142 | Every step keeps each entry behind the cursor either pending or acknowledged, ids distinct and attempts within the limit |
| WorkerProtocol.StepKeepsJustification | incidentops/worker/main.py:59-74 | An entry leaves the pending list only if it is malformed, its body returned, a retry was appended for this very message, or a failure record bears its id |
| WorkerGuarantees.AtMostOneOpenExecution | incidentops/worker/jobs.py:250-256 | In every run at most one execution of a job is open at a time |
| WorkerGuarantees.CommittedRowsAreWellFormed | incidentops/worker/jobs.py:257-292 | "running" is never committed and attempts never pass the limit |
| WorkerGuarantees.AttemptsCountCommittedExecutions | incidentops/worker/jobs.py:272-292 | In every run the attempts of a job are exactly the number of its executions that passed the guards and committed |
| WorkerGuarantees.TimeoutCostsNoAttempt | incidentops/worker/main.py:55-62 | An execution that starts and is later cancelled by the timeout leaves its row exactly as it was and unlocked, whatever others do in between, so timeouts never use up the limit |
| WorkerGuarantees.TerminalIsAbsorbing | incidentops/worker/jobs.py:257-270 | Completed, stale and exhausted-failed rows keep status and attempts through every continuation, late deliveries and compensating updates included |
| WorkerGuarantees.FailedJobRunsAgain | incidentops/worker/jobs.py:257-273 | A failed job can be run again and completed by a duplicate message if and only if attempts are left and its index version still matches |
| WorkerRecovery.EveryEntryIsAccountedFor | incidentops/worker/main.py:49-77 | In every run each entry is exactly one of undelivered, pending and acknowledged, acknowledged only with a reason, and no message passes the retry limit |
| WorkerRecovery.RetriesAreTheirOwn | incidentops/worker/main.py:62-69 | In every run an acknowledged message that neither returned nor failed for good has a successor appended later for it, with the next attempt number, that is no other message's retry |
| WorkerRecovery.NoJobIsStranded | incidentops/worker/index_dispatch.py:33-45 | In every run the WHERE clause selects a job at exactly the times it should: at once if pending, once idle if queued, never otherwise |
| WorkerRecovery.ZeroLimitStrandsEveryJob | incidentops/worker/index_dispatch.py:33-45 | A new job is ever selected if and only if the retry limit is at least 1; below that, every job of every run is stranded |
| WorkerRecovery.ReclaimedOnceIdle | incidentops/worker/queue.py:98-110 | In every run an entry can be reclaimed exactly if it has been read, is not acknowledged, and was last handed over at least the idle time ago |
| WorkerRecovery.UnacknowledgedEntryCanBeDelivered | incidentops/worker/queue.py:98-131 | From every reachable state every well-formed unacknowledged entry can still be delivered to any worker |
| WorkerRecovery.OtherVersionsNeverComplete | incidentops/worker/jobs.py:265-270 | In every run whose executions all have another index version, a job without an open execution is never completed |
| WorkerRecovery.CompletableIffOwnVersion | incidentops/worker/jobs.py:257-292 | Workers of one index version can complete an unfinished job without an open execution if and only if it is the job's own version |
| WorkerRecovery.OtherVersionsMakeStale | incidentops/worker/jobs.py:265-270 | A committed execution by a worker of another version makes an unfinished job stale |
| WorkerMessages.Take | incidentops/worker/queue.py:98-131 | A dequeue leaves the stream as the protocol's run of a delivery, a reclaim or nothing does, and begins a handling of exactly the message it hands over |
| WorkerMessages.Answer | incidentops/worker/main.py:59-74 | The end of message handling leaves the stream as the protocol's run of acknowledging, retrying and acknowledging, or recording the failure and acknowledging does; the handling is over |
| WorkerOutcomes.CompletedIffIndexedWithoutErrors | incidentops/worker/jobs.py:272-292 | In every run a job is completed if and only if some execution of it committed a batch result without errors |
| WorkerOutcomes.StepCompletesIff | incidentops/worker/jobs.py:272-292 | A step completes a job if and only if it commits an execution of that job whose batch result has no error |
| WorkerOutcomes.BeginOutcome | incidentops/worker/jobs.py:250-273 | The start of an execution: a missing, locked, completed or stale row is left alone, an exhausted one fails, one of another version becomes stale, any other is locked and run |
| WorkerOutcomes.FinishOutcome | incidentops/worker/jobs.py:274-368 | The end of an execution: a committed result without errors completes the row, one with errors fails it under the first error, an exception puts it back to pending while attempts are left, no commit changes nothing |
| WorkerOutcomes.OnlyExhaustedOrUnretryableMessagesFail | incidentops/worker/main.py:62-95 | In every run a message of the four retryable types has a failure record only once its attempts have reached the limit, and workflow and evaluation messages are never retries |
| WorkerOutcomes.RaisedMessageIsRetriedIff | incidentops/worker/main.py:62-95 | A raised message is answered by its successor exactly if its type is one of the four and its attempts are below the limit, and by a failure record otherwise |
| WorkerOutcomes.ReturnedOnlyByReturning | incidentops/worker/main.py:49-61 | Only a body that ends without an exception counts as returned: no timeout, crash, rollback or raised error does |
| WorkerRecovery.UnfinishedJobCanComplete | incidentops/worker/index_dispatch.py:24-70 | From every reachable state every pending or queued job can still be brought to its end by workers of any one index version: completed if the version is still the job's, else stale |
| IndexDispatch.Selected | incidentops/worker/index_dispatch.py:33-46 | At most n due jobs, and all due jobs if the batch is not full |
| IndexDispatch.SelectedIsAPrefix | incidentops/worker/index_dispatch.py:42-44 | Oldest first: no selected job was created after a due job that was left behind |
| IndexDispatch.IndexDispatcher.Dispatch | incidentops/worker/index_dispatch.py:24-70 | The dispatcher leaves table and stream exactly as the run of claim, publish and compensate steps of the protocol does, and counts the accepted publications |
| IndexDispatch.IndexDispatcher.SelectJobs | incidentops/worker/index_dispatch.py:33-46 | The scan with its limit computes the selection |
| IndexDispatch.IndexDispatcher.ClaimAll | incidentops/worker/index_dispatch.py:49-52 | The claiming loop makes exactly the selected rows queued now |
| IndexDispatch.IndexDispatcher.PublishAll | incidentops/worker/index_dispatch.py:54-67 | The publishing loop is the run of its publish and compensate steps |
| IndexDispatch.IndexDispatcher.PublishOne | incidentops/worker/index_dispatch.py:56-67 | One publication appends one entry unless refused; a reported failure returns a still queued row to pending |
| IndexDispatch.DispatchOutcome | incidentops/worker/index_dispatch.py:49-67 | After a dispatch each claimed row is queued since now, or pending without a time if its publication was reported as failed; no other row has changed; the log has one first-attempt message for each publication not refused, in order |
| IndexDispatch.AcceptedAreCounted | incidentops/worker/index_dispatch.py:54-70 | The number returned is that of the accepted publications |
| IndexJobs.IndexJob.Execute | incidentops/worker/jobs.py:257-368 | All exits of an execution, with statuses, codes and times written out: the guards; completed exactly for a result without errors, failed under its first error otherwise; retry while attempts are left; a cancellation changes nothing. Attempts move by one exactly when the guards pass and nothing cancels; well-formed rows stay well-formed and terminal rows unchanged |
| JobStream.RedisQueue.Enqueue | incidentops/worker/queue.py:92-96 | Appends one entry and changes nothing else |
| JobStream.RedisQueue.Dequeue | incidentops/worker/queue.py:98-131 | Hands over the reclaimed entry or else the next unread one and remembers it as in flight; a malformed entry is acknowledged and hands over nothing |
| JobStream.RedisQueue.Acknowledge | incidentops/worker/queue.py:133-136 | Acknowledges the in-flight entry of the job, if there is one, and forgets it |
| JobStream.RedisQueue.Fail | incidentops/worker/queue.py:138-142 | Writes a failure record cut to 1000 characters before acknowledging |
| JobStream.ProcessJob | incidentops/worker/main.py:49-95 | After the body: exactly the held entry is acknowledged, if another worker has not done so; success appends nothing; an error of one of the four retryable types below the limit appends exactly the successor with the next attempt and no failure, any other error exactly one failure record cut to 1000 characters |
| JobStream.CommandsKeepWellFormed | incidentops/worker/queue.py:92-142 | Every server command keeps pending and acknowledged a partition of the entries behind the cursor |
| JobStream.InlineQueue.Enqueue | incidentops/worker/queue.py:37-40 | Appends at the end |
| JobStream.InlineQueue.Dequeue | incidentops/worker/queue.py:42-45 | Takes from the front, or reports an empty queue |
| JobStream.InlineQueue.Fail | incidentops/worker/queue.py:50-51 | Records the error, cut to 1000 characters |
| JobStream.RedisRefinesInline | incidentops/worker/queue.py:30-131 | Without reclaiming, the stream answers every sequence of put, take, acknowledge and fail calls exactly as the in-process FIFO queue |
| TwoStoreIndex.LiveVectorsAreAllOrNone | incidentops/ingestion/indexer.py:246-341 | In every reachable state of concurrent transactions and late or lost vector calls, a committed document's live vectors are those of all its chunks or of none |
| TwoStoreIndex.StepKeepsInv | incidentops/ingestion/indexer.py:258-341 | Every step keeps each document version's vectors whole or absent with its own payload, and pending upserts apart from all other versions |
| TwoStoreIndex.RunKeepsInv | incidentops/retrieval/vector_store.py:91-163 | The same over every run, with each vector-store call applied at any later time or never |
| TwoStoreIndex.CallsDoWhatTheySay | incidentops/retrieval/vector_store.py:91-163 | Applying an upsert puts exactly its chunks there with its payload and leaves all other points alone; applying a delete removes exactly the points of that project and document |
| TwoStoreIndex.TransactionsAreAtomic | incidentops/ingestion/indexer.py:258-341 | A commit publishes exactly the transaction's own versions; rolling back a transaction or one write leaves the committed rows as they are |
| TwoStoreIndex.WritesExcludeEachOther | incidentops/ingestion/indexer.py:258-292 | In every run at most one open transaction has written a version of a document |
| TwoStoreIndex.UndisturbedIndexingPublishes | incidentops/ingestion/indexer.py:246-341 | From every reachable state an undisturbed re-index ends with all new chunks live under their own payload, the replaced ones gone and every other document's points as they were, and a search over all points returns every new chunk |
| TwoStoreIndex.VectorSearch | incidentops/retrieval/vector_search.py:31-46 | Returns only hits that are chunks of a document of the project, and all of those |
| TwoStoreIndex.PositionsAreTheKeptOnes | incidentops/retrieval/vector_search.py:42-46 | Exactly the hits whose chunk is in the project are kept |
| TwoStoreIndex.SearchKeepsHitOrder | incidentops/retrieval/vector_search.py:42-46 | The rows are the kept hits in hit order |
| TwoStoreIndex.SearchNeverShowsPartOfADocument | incidentops/retrieval/vector_search.py:31-46 | A search over all points shows each document whole or not at all, whatever orphan points exist |
| BatchIndexing.DocumentIndex.IndexDocuments | incidentops/ingestion/indexer.py:54-158 | The batch loop leaves rows, vectors and report as the fold over its documents says, and invalidates the cache exactly if something was created or updated |
| BatchIndexing.DocumentIndex.IndexOneDocument | incidentops/ingestion/indexer.py:168-349 | One document, with its early exits and the vector removal before the rewrite, for every pattern of store failures |
| BatchIndexing.DocumentIndex.RewriteDocument | incidentops/ingestion/indexer.py:270-341 | The savepoint: every failure after the row was written undoes the row, but not what the vector store did |
| BatchIndexing.ParseDocument | incidentops/ingestion/indexer.py:194-209 | Parser failure, no chunks, or the parsed chunks, replaced by the fallback chunks exactly if the estimate passes the limit |
| BatchIndexing.CollectPieces | incidentops/ingestion/indexer.py:211-244 | The nested loop with its early exit collects all pieces, or fails exactly if they are more than the limit |
| BatchIndexing.FallbackOnlyBeyondLimit | incidentops/ingestion/indexer.py:208-209 | The bounded fallback replaces the parsed chunks only of documents that would have hit the chunk limit |
| BatchIndexing.BatchConservesCounts | incidentops/ingestion/indexer.py:54-158 | received = created + updated + skipped_unchanged + skipped_invalid, and one error per invalid document |
| BatchReports.ReportAgreesWithStore | incidentops/ingestion/indexer.py:75-158 | For every batch: `created` is the number of external ids with a row afterwards but not before, `updated` that of ids whose row was rewritten, `chunks_created` the number of texts in the rows of both |
| BatchReports.RefusalReasons | incidentops/ingestion/indexer.py:194-256 | A document is refused before the store is touched for exactly these reasons: parser exception, no chunks, too many chunks, or an embedding error or wrong count, each under its own code |
| BatchReports.RefusedDocumentsChangeNothing | incidentops/ingestion/indexer.py:177-256 | A refused document leaves rows and vectors as they are and is reported under that code |
| BatchReports.AcceptedUnlessRefused | incidentops/ingestion/indexer.py:177-349 | Without refusal and failures new content is accepted, as an update exactly if the id has a row, unless the dimension is wrong |
| BatchReports.DuplicatesAreRejected | incidentops/ingestion/indexer.py:75-124 | Of several valid documents of one external id in a batch every one but the first is rejected as a duplicate and changes nothing |
| BatchReports.OthersKeepVectors | incidentops/ingestion/indexer.py:258-341 | Indexing a document never touches the vectors of another external id |
| BatchIndexing.OnlyReportedOperationsChangeRows | incidentops/ingestion/indexer.py:177-349 | Whatever fails, a document changes its own row exactly when its operation is reported as created or updated, and no other row |
| BatchIndexing.IndexOneKeepsStoreOk | incidentops/ingestion/indexer.py:177-349 | Each row keeps its own document id, chunk limit and vectors |
| BatchIndexing.BatchKeepsStoreOk | incidentops/ingestion/indexer.py:54-158 | The same after every batch |
| BatchIndexing.IndexOneKeepsContent | incidentops/ingestion/indexer.py:177-349 | One document keeps the rows equal to the last accepted documents of their ids, content included |
| BatchIndexing.BatchKeepsContent | incidentops/ingestion/indexer.py:75-124 | The same for a whole batch with any failures |
| BatchIndexing.RowsHoldTheLastAcceptedContent | incidentops/ingestion/indexer.py:54-158 | After any sequence of batches there is one row for each external id ever accepted, and it holds the pieces of the last accepted document of that id, within the chunk limit |
| BatchIndexing.AcceptedContentStays | incidentops/ingestion/indexer.py:75-124 | At the end of a batch the row of each of its documents that was created or updated at its turn holds that content, and that of an unchanged one has its hash |
| BatchIndexing.SecondTimeIsFixed | incidentops/ingestion/indexer.py:177-191 | Indexing a document twice in a row changes nothing the second time and repeats its error, if any |
| BatchIndexing.OthersKeepFixed | incidentops/ingestion/indexer.py:177-349 | Indexing another external id does not disturb that |
| BatchIndexing.RepeatingABatchChangesNothing | incidentops/ingestion/indexer.py:54-158 | Repeating a batch without store failures creates and updates nothing, leaves rows and vectors as they are, reports what was accepted as unchanged and repeats every error |
| BatchIndexing.LiveAfterIndexingIff | incidentops/ingestion/indexer.py:177-341 | For every document, store and failure: an id has its vectors afterwards if and only if it had them and they were left alone, or new ones were published |
| BatchIndexing.ReplacementKeepsVectorsIff | incidentops/ingestion/indexer.py:246-341 | A replacement of a searchable row keeps it searchable if and only if it is refused first, its removal fails without effect, or removal, database and upsert succeed with an embedding of the right dimension |
| BatchIndexing.WrongDimensionLosesVectors | incidentops/ingestion/indexer.py:258-324 | An embedding of the wrong dimension loses the vectors even if every store call succeeds |
| BatchIndexing.IndexingRestoresVectorsIff | incidentops/ingestion/indexer.py:185-192 | Indexing leaves embeddable content searchable if and only if the row did not already claim it or its vectors were still there |
| BatchIndexing.FailedReplacementLosesVectors | incidentops/ingestion/indexer.py:258-341 | Every replacement that ends in an error after the removal leaves the old row without vectors, and sending the old content again does not bring them back |
| Segmentation.SplitTextByTokens | incidentops/ingestion/chunking/chunker.py:17-38 | The splitting loop terminates and produces the pieces by index |
| Segmentation.SplitReassembles | incidentops/ingestion/chunking/chunker.py:22-38 | Exactly ceil(n / stride) pieces; dropping the overlap from each later piece gives back the exact word sequence |
| Segmentation.PiecesAreBounded | incidentops/ingestion/chunking/chunker.py:24-36 | Every piece of an over-long text is non-empty and within the token limit as count_tokens counts |
| Segmentation.NeighboursShare38Words | incidentops/ingestion/chunking/chunker.py:24-36 | Neighbouring stored pieces overlap by 38 words, which is 50 tokens at 1.3 per word |
| Segmentation.PiecesAreSpacedByBlanks | incidentops/ingestion/chunking/chunker.py:34-35 | A stored piece of an over-long text is its words with one blank between neighbours |
| Segmentation.StoredWholeIff | incidentops/ingestion/indexer.py:211-216 | A text is stored as it is exactly if its token count is within the limit; otherwise as two or more pieces |
| Segmentation.LoopExitsIffStridePositive | incidentops/ingestion/chunking/chunker.py:31-36 | The loop over an over-long text exits if and only if the pieces are longer than their overlap |
| Segmentation.EstimateIsLowerBound | incidentops/ingestion/indexer.py:352-357 | The segment estimate never exceeds the number of pieces the real loop stores |
| Segmentation.EstimateOneIsLowerBound | incidentops/ingestion/indexer.py:354-356 | The same for one chunk |
| Segmentation.EstimateOneIsLeast | incidentops/ingestion/indexer.py:354-356 | The estimate of one text is the least positive number of full chunks that hold its tokens |
| Segmentation.EstimateAddsUp | incidentops/ingestion/indexer.py:352-357 | The estimate of a document is the sum over its texts |
| FallbackPacker.BuildBoundedFallbackChunks | incidentops/ingestion/indexer.py:360-416 | The packing loop terminates and computes the fallback chunks of the content |
| FallbackPacker.FallbackChunksAreGreedy | incidentops/ingestion/indexer.py:380-415 | The chunks are consecutive greedy stretches within the chunk limit, none blank; packing stops only at the end, at the limit or before a blank stretch |
| FallbackPacker.GrowChunk | incidentops/ingestion/indexer.py:382-393 | The inner loop takes exactly the greedy stretch of lines |
| FallbackPacker.ChunkCountIsBounded | incidentops/ingestion/indexer.py:370-416 | At most min(max_chunks, 2T) chunks, T being the target chunk count |
| FallbackPacker.ChunkCountFollowsTheTokens | incidentops/ingestion/indexer.py:367-416 | A document whose tokens fit into k full chunks is packed into at most 2k, and never into more than max_chunks |
| FallbackPacker.TargetIsLeast | incidentops/ingestion/indexer.py:369-374 | The target size is the least number of tokens, at or above the configured one, at which max_chunks chunks have room for the whole document |
| FallbackPacker.ChunksAreTheirLines | incidentops/ingestion/indexer.py:380-415 | Each chunk is its lines joined by newlines and stripped; with two or more lines it is within the target, and unless it ends the document it is at the target or would pass it with its next line |
| FallbackPacker.ChunksPartitionAPrefix | incidentops/ingestion/indexer.py:380-415 | The chunks partition a prefix of the lines without gap or overlap and hold its words in order |
| FallbackPacker.CoverageFailsIffStuck | incidentops/ingestion/indexer.py:394-395 | A non-blank line is left out if and only if some greedy stretch of the lines is blank and followed by an oversized line, or max_chunks stretches do not reach all words; with room for 2T chunks the first decides alone |
| FallbackPacker.EveryNonBlankLineIsCovered | incidentops/ingestion/indexer.py:380-415 | Every non-blank line is covered if no oversized line directly follows a blank one |
| FallbackPacker.NoChunksIff | incidentops/ingestion/indexer.py:380-395 | A document is packed into no chunk if and only if its first greedy stretch is blank |
| FallbackPacker.BlankThenOversizedLosesText | incidentops/ingestion/indexer.py:394-395 | For every text line over the token limit: behind a blank line it is packed into no chunk at all |
| FallbackStorage.FallbackStoresAllWordsIff | incidentops/ingestion/indexer.py:208-244 | A document accepted through the fallback stores a prefix of its words, and all of them if and only if no greedy stretch of its lines is blank and followed by an oversized line and max_chunks stretches reach all words |
| FallbackStorage.FallbackStoresNothingIff | incidentops/ingestion/indexer.py:208-244 | It is stored without any chunk if and only if its first greedy stretch is blank |
| FallbackStorage.FallbackMayStoreNothing | incidentops/ingestion/indexer.py:185-244 | A blank line before one long line is accepted as created or updated with no chunk and no error, and skipped as unchanged ever after |
| FallbackStorage.StoredWordsAreAllWords | incidentops/ingestion/indexer.py:211-216 | The pieces stored for any chunk texts hold exactly their words |
| Text.WordsOfJoinedWords | incidentops/ingestion/chunking/chunker.py:34-35 | Splitting joined words gives the words back |
| Text.WordsOfJoinedLines | incidentops/ingestion/indexer.py:385-393 | Joining lines keeps their word sequence |
| Text.WordsOfStrip | incidentops/ingestion/indexer.py:385-394 | Stripping keeps the word sequence, and leaves nothing exactly if there are no words |
| Text.WordsOfLines | incidentops/ingestion/indexer.py:366-369 | Cutting a text into lines keeps its word sequence |
| Text.LinesWithEndsAreTheText | incidentops/ingestion/indexer.py:366-366 | Cutting a text into lines takes out the line ends and nothing else, and no line holds one |
| Text.StripCutsBothEnds | incidentops/ingestion/indexer.py:385-394 | Stripping cuts spaces off both ends and nothing else |
| Text.JoinedLength | incidentops/ingestion/chunking/chunker.py:35-35 | A joined text is its parts with exactly one separator between neighbours |
| Text.TokensAreSuperadditive | incidentops/ingestion/chunking/chunker.py:13-14 | The truncated token counts of parts never add up to more than the count of the whole |
| EmbeddingBatcher.AsyncEmbeddingBatcher.constructor | incidentops/retrieval/embeddings.py:47-53 | Starts empty with a limit of at least one text |
| EmbeddingBatcher.AsyncEmbeddingBatcher.Append | incidentops/retrieval/embeddings.py:64-73 | The critical section of embed: one request is queued; the caller is told to flush at the limit, else the window task is armed unless one is not done |
| EmbeddingBatcher.AsyncEmbeddingBatcher.Swap | incidentops/retrieval/embeddings.py:83-88 | The critical section of _flush hands over all pending requests and resets list and counter |
| EmbeddingBatcher.AsyncEmbeddingBatcher.AskProvider | incidentops/retrieval/embeddings.py:89-104 | The provider is asked for the texts of all requests in order if all agree in model and input type; otherwise the batch fails |
| EmbeddingBatcher.AsyncEmbeddingBatcher.Settle | incidentops/retrieval/embeddings.py:105-114 | The loop with the running offset settles every waiting future of the batch with its own share, or with the error, and leaves done futures alone |
| EmbeddingBatcher.StepKeepsInv | incidentops/retrieval/embeddings.py:55-114 | Every step of every interleaving keeps the batcher invariant |
| EmbeddingBatcher.RunKeepsInv | incidentops/retrieval/embeddings.py:55-114 | The same over every run |
| EmbeddingBatcher.NoRequestIsLostOrRepeated | incidentops/retrieval/embeddings.py:67-86 | Swapped batches followed by the pending list are the arrivals in order; the counter is exact; at the limit some pending caller has yet to swap |
| EmbeddingBatcher.FuturesAreSettledOnce | incidentops/retrieval/embeddings.py:105-114 | A settled future keeps its result for ever |
| EmbeddingBatcher.ResolvedFromItsBatch | incidentops/retrieval/embeddings.py:105-110 | A result is the request's own slice of the answer to an unmixed batch that held it |
| EmbeddingBatcher.EveryCallerGetsItsOwnVectors | incidentops/retrieval/embeddings.py:89-110 | In every interleaving a caller that gets a result gets exactly the vectors of its own texts in order, if the provider answers what it is asked |
| EmbeddingBatcher.AnAnswerReachesEveryCaller | incidentops/retrieval/embeddings.py:100-110 | In every run with such a provider a caller that is not cancelled has the vectors of its own texts if and only if its batch has been answered |
| EmbeddingBatcher.AnswerPossibleIff | incidentops/retrieval/embeddings.py:94-99 | A batch can be answered if and only if its provider call is going on and its requests agree in model and input type |
| EmbeddingBatcher.StrandedIff | incidentops/retrieval/embeddings.py:70-86 | Requests become stranded exactly when the window task returns while requests that armed nobody are pending, until the next arrival |
| EmbeddingBatcher.ArrivalArmsNobodyIff | incidentops/retrieval/embeddings.py:70-73 | An arrival leaves nobody about to swap if and only if it stays below the limit while the window task is in the provider call and no caller is to flush |
| EmbeddingBatcher.StrandedUntilTheNextArrival | incidentops/retrieval/embeddings.py:70-86 | Without another arrival a stranded request is never answered |
| EmbeddingBatcher.AbandonedRequestsWaitForEver | incidentops/retrieval/embeddings.py:82-114 | When the flusher of a batch is cancelled in the provider call, the other callers of that batch never get a result or an error, whatever happens later |
| EmbeddingBatcher.UnansweredIff | incidentops/retrieval/embeddings.py:89-114 | In every run an uncancelled caller of a swapped-out batch is without an answer if and only if the provider call is going on or was abandoned |
| EmbeddingBatcher.ARequestCanBeStranded | incidentops/retrieval/embeddings.py:72-80 | Two small requests are enough to strand one |
| EmbeddingCache.EmbeddingCache.EmbedTexts | incidentops/retrieval/embeddings.py:355-367 | For any valid cache contents and any failing cache calls the result is the direct embedding of every text in order; the backend is asked exactly for the texts the cache did not answer; the cache stays valid and gains exactly the generated vectors whose cache call succeeds |
| EmbeddingCache.EmbeddingCache.StoreGenerated | incidentops/retrieval/embeddings.py:362-364 | Stores exactly the generated vectors whose cache call succeeds and keeps the cache valid |
| EmbeddingCache.Fill | incidentops/retrieval/embeddings.py:365-366 | Filling the missing indices leaves no gap and the right vector everywhere |
| EmbeddingCache.KnownOfFull | incidentops/retrieval/embeddings.py:367 | Filtering out None drops nothing once all indices are filled |
| EmbeddingCache.EmbeddingCache.GetEmbedding | incidentops/retrieval/cache.py:29-45 | A stored vector, or a miss on any failure |
| EmbeddingCache.EmbeddingCache.SetEmbedding | incidentops/retrieval/cache.py:48-56 | Stores one vector, or nothing on failure |
| ProjectCache.StalePayloadsAreNotReturned | incidentops/retrieval/cache.py:59-109 | In every interleaving a payload returned for an invalidated project is an old one if and only if the get had read its generation before the invalidation |
| ProjectCache.AnOverlappingGetReturnsTheOldPayload | incidentops/retrieval/cache.py:64-106 | A get that had already read its generation still returns the old payload |
| ProjectCache.ReturnedPayloadsWereStoredForTheSameName | incidentops/retrieval/cache.py:59-109 | A payload is returned only under the namespace, project, value and generation it was stored under |
| ProjectCache.Cache.GetProjectJson | incidentops/retrieval/cache.py:59-75 | Undisturbed: the payload under the current generation, or a miss on any failure |
| ProjectCache.Cache.SetProjectJson | incidentops/retrieval/cache.py:78-90 | Undisturbed: changes what is found under its own name and nothing else |
| ProjectCache.Cache.InvalidateProject | incidentops/retrieval/cache.py:93-102 | Nothing of the project is found any more, other projects are not affected, and no entry is deleted |
| RateLimit.InMemoryRateLimiter.Check | incidentops/security/rate_limit.py:21-28 | Pops what has left the window and records the request exactly if it is let through; other keys are untouched |
| RateLimit.BucketIsRecentAccepted | incidentops/security/rate_limit.py:23-28 | After every check the bucket is exactly the accepted requests in (now - window, now] |
| RateLimit.AllowedIff | incidentops/security/rate_limit.py:24-28 | A request is let through if and only if fewer than `limit` requests were let through in (now - window, now] |
| RateLimit.AtMostLimitInEveryWindow | incidentops/security/rate_limit.py:21-28 | With a clock that does not go back, at most `limit` requests are accepted in every half-open window |
| RateLimit.KeysAreIndependent | incidentops/security/rate_limit.py:23 | Each bucket is that of the key's own requests |
| RateLimit.EveryKeyIsLimited | incidentops/security/rate_limit.py:21-28 | Both for any number of keys checked in any order |
| RateLimit.RedisRateLimiter.Check | incidentops/security/rate_limit.py:39-49 | One transaction: trims, counts, records the attempt either way and lets the key expire a window later; other keys are untouched |
| RateLimit.RedisCountsAttempts | incidentops/security/rate_limit.py:43-48 | A request passes if and only if fewer than `limit` attempts were made in the window before it |
| RateLimit.ExpiryChangesNoDecision | incidentops/security/rate_limit.py:46 | Decisions are the same as if keys never expired |
| RateLimit.RedisIsStricter | incidentops/security/rate_limit.py:39-49 | On a strictly increasing clock, whatever passes Redis passes the in-memory limiter |
| RateLimit.RejectedAttemptsCountInRedis | incidentops/security/rate_limit.py:45-48 | The converse fails: three attempts where only the in-memory limiter lets the last one through |
| RankFusion.WeightedRrf | incidentops/retrieval/hybrid_search.py:441-481 | The in-place loop over all branches: the candidates are exactly the ids of some branch, each with the entry of its own occurrences and with the fused score as its score |
| RankFusion.FusionIsThePointwiseSum | incidentops/retrieval/hybrid_search.py:454-480 | Scores are the sum of 100 * max(w, 0) / (max(k, 1) + rank) over all occurrences; candidates are exactly the ids of some branch |
| RankFusion.OneBranchScore | incidentops/retrieval/hybrid_search.py:480 | In one branch without duplicates the i-th result, counted from 0, has score * (max(k, 1) + i + 1) = 100 * max(w, 0) |
| RankFusion.EntriesRecordTheirRanks | incidentops/retrieval/hybrid_search.py:478-479 | branch_ranks holds exactly the candidate's rank in each branch it occurs in |
| RankFusion.EntriesRecordTheirScores | incidentops/retrieval/hybrid_search.py:465-478 | An entry holds the score each branch gave the candidate, and 0 for the vector, lexical and metadata branches it is not in |
| RankFusion.EntriesKeepTheFirstChunk | incidentops/retrieval/hybrid_search.py:462-477 | A candidate keeps the chunk of its first occurrence |
| RankFusion.Dominance | incidentops/retrieval/hybrid_search.py:480 | A chunk ranked no worse in every branch the other appears in scores at least as high |
| RankFusion.StrictDominance | incidentops/retrieval/hybrid_search.py:480 | In branches without duplicates, a chunk ranked no worse in every branch and better in one of positive weight scores strictly higher |
| RankFusion.ScoresAreBounded | incidentops/retrieval/hybrid_search.py:459-480 | Scores lie in [0, 100 * sum of max(w, 0) / (max(k, 1) + 1)] |
| LogBursts.ParseLogs | incidentops/ingestion/parsers/log_parser.py:29-64 | The windows followed by the bursts; a zero window size is refused, a negative one gives no windows |
| LogBursts.TimeWindows | incidentops/ingestion/parsers/log_parser.py:47-58 | The window loop |
| LogBursts.ErrorClusters | incidentops/ingestion/parsers/log_parser.py:130-167 | The one-pass loop with its flushes emits exactly the bursts of the runs |
| LogBursts.Flush | incidentops/ingestion/parsers/log_parser.py:135-154 | Counts the error lines, drops a single one, cuts at 24 lines |
| LogBursts.ChunkIffSomeLineIsNotBlank | incidentops/ingestion/parsers/log_parser.py:75-77 | A chunk is built exactly if one of its lines is not blank |
| LogBursts.JoinOfSplit | incidentops/ingestion/parsers/log_parser.py:39 | Splitting into lines loses nothing |
| LogBursts.BurstsAreMaximalRuns | incidentops/ingestion/parsers/log_parser.py:130-167 | Every burst is that of a maximal run of at least two error lines, starts at its first line, records its length, spans at most 24 lines; bursts are in order and disjoint |
| LogBursts.EveryRunHasItsBurst | incidentops/ingestion/parsers/log_parser.py:156-166 | Every maximal run of two or more error lines has its burst |
| LogBursts.BurstsCorrespondToRuns | incidentops/ingestion/parsers/log_parser.py:130-167 | Bursts and such runs correspond one to one, in order |
| LogBursts.WindowsCoverEveryLineOnce | incidentops/ingestion/parsers/log_parser.py:47-58 | Every non-blank line is in exactly one window, the one that starts at the last multiple of the window size up to it and ends a window size later or with the text |
| CollectorBatching.CollectorSync.Sync | incidentops/collector/service.py:86-119 | The loop uploads and counts as the fold over the files says, and fails exactly if an upload raises |
| CollectorBatching.CollectorSync.AddDocument | incidentops/collector/service.py:108-114 | Makes room for a document by bytes, then sends a full batch |
| CollectorBatching.CollectorSync.UploadBatch | incidentops/collector/service.py:127-142 | Sends the batch and adds the response to the counters, or raises and adds nothing |
| CollectorBatching.CollectorSync.Skip | incidentops/collector/models.py:42-44 | Counts a skipped file under its reason |
| CollectorBatching.UploadsPartitionTheDocuments | incidentops/collector/service.py:86-116 | The batches concatenate to exactly the normalized documents in order, or to a prefix if an upload raises; each is non-empty, within the batch size and, from two documents on, within the byte limit |
| CollectorBatching.NoBatchIsSentEarly | incidentops/collector/service.py:108-114 | A batch is only sent when it is full or the next document would take it over the byte limit |
| CollectorBatching.SyncFailsIff | incidentops/collector/service.py:86-142 | The sync fails if and only if an upload raises, which is then the last one; bytes_uploaded counts exactly the documents of the uploads that returned |
| CollectorBatching.FilesAreTallied | incidentops/collector/service.py:88-99 | As long as no upload raises, every file is seen, the normalized ones are the documents, the others are skipped, and redaction_count is the documents' total |
| CollectorBatching.EveryFileIsCountedOnce | incidentops/collector/service.py:88-98 | After every file files_seen = files_skipped + documents_normalized, and documents_synced is what Core reports as created, updated and unchanged |
| CollectorBatching.ReasonsAreCounted | incidentops/collector/service.py:90-97 | Each reason counts the files skipped for it or not normalized for it, without a reason as "malformed_content"; "unchanged" also counts the documents Core found unchanged |
| EvidencePacker.PackEvidence | incidentops/retrieval/evidence_packer.py:84-139 | The packing loop, sort and cut compute the specified evidence |
| EvidencePacker.CompactIsShort | incidentops/retrieval/evidence_packer.py:142-147 | A compacted text is at most two characters over its limit |
| EvidencePacker.EvidenceIsBounded | incidentops/retrieval/evidence_packer.py:84-139 | At most max_evidence items with distinct signatures, none empty, each at most three characters over the limit and at most one of them three over, in total at most two over and then exactly two, sorted, and none lost by the sort |
| EvidencePacker.EvidenceHasThirdCharacterIff | incidentops/retrieval/evidence_packer.py:84-139 | The evidence has a text more than two characters over the limit if and only if some result, at its turn, is not skipped, is cut to full length and finds exactly limit + 1 characters left |
| EvidencePacker.StepKeepsPackingOk | incidentops/retrieval/evidence_packer.py:94-137 | All packed texts but the last are at most two characters over the limit, and a third character only comes with the total two over |
| EvidencePacker.SortIsStable | incidentops/retrieval/evidence_packer.py:138 | Sorted by score, source priority and path, a permutation, and stable |
| EvidencePacker.ThirdCharacterIff | incidentops/retrieval/evidence_packer.py:105-112 | One fitted text is more than two characters over the limit if and only if it had been cut to full length and exactly limit + 1 characters are left in total |
| EvidencePacker.AThirdCharacterIsPossible | incidentops/retrieval/evidence_packer.py:105-112 | One chunk of four letters shows it |
| EvidencePacker.TidyLines | incidentops/retrieval/evidence_packer.py:143 | Cleaning a text that is already clean changes nothing |
| EvidenceContents.ItemsShowResults | incidentops/retrieval/evidence_packer.py:84-137 | Every item shows the first result about its lines, with that result's source type, its rerank score or else its fused score, and its compacted text or what a smaller rest of the total left of it |
| EvidenceContents.NothingIsLeftOut | incidentops/retrieval/evidence_packer.py:94-137 | If nothing about a result's lines is shown, the first result about them leaves nothing to pack, or the evidence is full: max_evidence items, or at most one character left |
| EvidenceContents.EvidenceIsOrdered | incidentops/retrieval/evidence_packer.py:138 | By score from high to low, then by source rank, then by path compared character by character |
| EvidenceContents.SourcesAreRanked | incidentops/retrieval/evidence_packer.py:10-18 | deploy, logs, code, incident, config, api_doc, runbook, then everything else |
| EvidenceContents.CompactShowsAPrefix | incidentops/retrieval/evidence_packer.py:142-147 | A text that fits is shown whole; of a longer one the first max_chars - 1 characters without trailing spaces and three dots, or nothing if max_chars is below two |
| EvidenceContents.CompactIsEmptyIff | incidentops/retrieval/evidence_packer.py:142-147 | Nothing is left of a text if and only if it has no words, or must be cut to fewer than two characters |
| EvidenceContents.CleanKeepsWords | incidentops/retrieval/evidence_packer.py:143 | Cleaning keeps the words |

## Left out

- HTTP, SQLAlchemy, Qdrant and Redis clients: only the atomic effect of each transaction or command is modelled, with failures that may or may not have taken effect where the state machines say so.
- Commits are atomic and their outcome is known; a commit that succeeds but is reported as failed is not modelled.
- Deleting documents, sources or projects, and the vector deletions that go with it.
- The sync counters and the source status roll-up after an execution (incidentops/worker/jobs.py:294-319): unlocked read-modify-writes that promise nothing exact.
- Malformed payloads and the row id inside the payload: a message carries its job's id as a number, and a message without a job field is the only malformed one.
- JobStream.RedisQueue.Dequeue: the scan order of XAUTOCLAIM is not modelled; the server may offer any idle entry. In the state machine Job.id is the entry's position in the stream.
- WorkerProtocol.RunKeepsInv: an acknowledgement that finds no in-flight entry is covered by a flag of the delivery that may be false at any time, which allows more runs than the code.
- WorkerProtocol.StepKeepsInv: a dispatcher's transaction is one step, so an execution that finds its row locked by one and returns without running is a step that may happen at any time (Skip).
- IndexDispatch.IndexDispatcher.Dispatch: one uninterrupted run; interruptions and other processes are in the state machine.
- BatchIndexing.DocumentIndex.IndexOneDocument: parsing, validation and the embedding backend are functions of their input; document attributes other than content and hash, chunk metadata, relations and search vectors are not modelled.
- BatchIndexing.BatchKeepsStoreOk: max_chunk_tokens must leave a positive stride over the fixed overlap of 50 tokens, as the default of 512 does, since otherwise the splitting loop does not exit (Segmentation.LoopExitsIffStridePositive), and max_chunks_per_document must be at least 1, since the fallback packer divides by it.
- Segmentation.SplitTextByTokens: the factor 1.3 is the exact rational 13/10, without floating-point rounding.
- FallbackPacker.BuildBoundedFallbackChunks: chunk type, title and metadata of the chunks.
- TwoStoreIndex.SearchNeverShowsPartOfADocument: concerns a search that returns every point; a top-k search can cut through a document. The filters of a search are not modelled.
- EmbeddingBatcher.AsyncEmbeddingBatcher.Append: the window's length is not modelled, the task may wake at any time. A caller is never suspended between queueing its request and its own swap in a single event loop, because the lock is never held across an await; the model allows other steps in between, but no cancellation there.
- EmbeddingBatcher.EveryCallerGetsItsOwnVectors: assumes that the provider's answer has one vector per text, which not every backend checks; without it a caller gets its slice of whatever was answered (EmbeddingBatcher.ResolvedFromItsBatch).
- EmbeddingCache.EmbeddingCache.EmbedTexts: changes other processes make to the cache during the call.
- ProjectCache.StalePayloadsAreNotReturned: assumes a durable generation counter and collision-free digests; an invalidation that fails is not one. A payload computed before an invalidation and stored after it is stored under the new generation.
- RateLimit.RedisRateLimiter.Check: client and server share one clock, members are their own scores, and times are real numbers.
- RateLimit.AtMostLimitInEveryWindow: limit and window of a key are fixed during a run.
- RankFusion.WeightedRrf: floating-point rounding of scores.
- LogBursts.ParseLogs: the regular expressions, and the timestamps, levels and ids extracted from lines; the error pattern is a parameter.
- CollectorBatching.CollectorSync.Sync: discovery, normalization, redaction, the type, language and hint counts, and the merging of Core's diagnostics.
- EvidencePacker.PackEvidence: redaction happens before and injection flags beside the model; the remaining fields of an item are copied.
- Retrieval heuristics, confidence rules, authentication, auditing, metrics, the web app and the command line: decision tables and plumbing that would only add easy members.
