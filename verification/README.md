# Verification of the knowledge-base platform

A Dafny model of the parts of the platform where a mistake leaves no error message: documents and
their vectors under concurrent workers, the rebuild of a whole knowledge base, the chunker, refresh-token
rotation, streaming generation and its event buffer, rank fusion, paging and settings. The database and
Redis are maps; a transaction, a guarded `UPDATE` or a Lua script is one atomic step. Code that changes
rows, keys or fields in place is a class whose methods are proved equal to a function on the state;
protocols are step relations over those functions; the theorems are about the functions and about every
run of the steps.

`dafny verify dfyconfig.toml` checks all of it.

| files | subject |
|---|---|
| `KnowledgeTables`, `KnowledgeStore` | the tables, their guarded writes and foreign keys |
| `DocumentLifecycle`, `DocumentRuns` | embed tasks, ingests, re-ingest, delete and clean-up, interleaved at will |
| `DocumentService`, `EmbeddingService` | the operations on one document, and one embed task, performed on the tables |
| `ReindexPlan`, `Reindex`, `ReindexService`, `ReindexRuns`, `Rechunk` | rebuilding a knowledge base |
| `Text`, `Tokens`, `Sentences`, `Chunker*`, `ChunkBuilder` | the chunker |
| `AuthSessions`, `AuthService` | refresh-token rotation |
| `Gateway`, `ChatTurn` | streaming generation and the end of a turn |
| `StreamBuffer`, `SseWire` | the event buffer, the event stream and resumption |
| `Ranking`, `RankFusion`, `ContextSelection` | merging and selecting candidates |
| `Paging`, `Cursors` | keyset pages and the text of a cursor |
| `KbConfig` | settings: the strict writer and the tolerant reader |

## What turned out not to hold

Each of these is kept as the code has it, with the input that shows it and the condition under which the
promise is kept.

- Chunks do not always fit the target: the carry changes after the body budget is computed
  (`ChunkerOverlap.OverlapOverflows`). Without headings and overlong sentences they fit exactly when there
  is no overlap (`ChunkerOverlap.TargetKeptIffNoOverlap`); in general the bounds of `ChunkerBounds.ChunkSizes` hold.
- The switch of a rebuild is gated by a count that includes superseded chunks and looks at the requested
  name, while search looks under the name the provider reports for it. `Reindex.GateExact` says exactly when
  the gate opens, `Reindex.SwitchIsComplete` when search is complete after it, `Reindex.AliasSwitch` which
  chunks search misses under an alias; `Reindex.SupersededChunkMasks` is a job after which it misses one.
- The clean-up of old vectors keeps the name stored in the knowledge base. It keeps what search ranks if and
  only if that is the name the provider reports, or search ranked nothing (`Reindex.PurgeKeepsSearch`); a
  knowledge base that was empty when its job ran can lose all (`Reindex.EmptyBaseLosesAll`).
- The status writes of an ingest compare no version. A run from the empty tables ends with a ready document
  whose active chunk has no vector (`DocumentRuns.ReadyWithoutVectors`). The write of `chunked` is sound if
  and only if the document is gone, its version has no text, or a store before was one of the version it now
  has (`DocumentLifecycle.MarkKeepsExactly`, `DocumentRuns.GuardExactly`): `DocumentRuns.ReadyIsComplete` holds
  of all runs that keep to that, and any other such write has a continuation to a ready document that is not
  covered (`DocumentRuns.GuardIsNeeded`). The store of chunks compares none either: it leaves active chunks of a
  version that is gone exactly when it comes late (`DocumentRuns.ActiveIsCurrentExactly`).
- `mark_retries_exhausted` compares no version: a task of version 1 can fail version 2
  (`DocumentRuns.StaleTaskFailsNewVersion`), exactly when that is chunked or being embedded
  (`DocumentRuns.StaleExhaustionExactly`).
- `stream_chat` documents exactly one usage. It yields as many as the deciding call reported, and one when
  that reported none (`Gateway.StreamsEndWell`), so two when a provider reports twice (`Gateway.TwoUsages`).
- A saved answer is documented as final: what fails afterwards must not close the turn a second time. The
  stream is closed behind the `done` it was left at, outside the guarded block; when that fails, a completed
  and announced answer is saved again as failed, settled again and followed by an error event
  (`ChatTurn.DoneThenFailed`). A turn is saved twice exactly when that operation fails and the failed row can
  be saved, and once only in all other runs (`ChatTurn.TurnEndsOnce`).
- `_generate` documents that it never raises. A turn raises exactly when its body raises and the operations
  that save it as failed do not succeed, or when the slot cannot be returned (`ChatTurn.TurnEndsOnce`). One
  failing operation never costs the row (`ChatTurn.OneFailureIsAbsorbed`), two can (`ChatTurn.TwoFailuresRaise`).
- `generate` documents that the slot comes back on every path: it does exactly when the operation that
  returns it succeeds (`ChatTurn.TurnEndsOnce`).
- A bad `Last-Event-ID` is documented as a 422; a superscript digit passes `isdigit` and breaks `int`
  (`SseWire.HeaderExactly`).
- The default overlap is not clamped, so it can reach or pass a small target from a layer
  (`KbConfig.OverlapBelowTarget`, `KbConfig.DefaultOverlapCanExceed`).

## Model

| member | source | states |
|---|---|---|
| KnowledgeTables.ReplaceKeepsKeys | backend/repositories/knowledge.py:587-618 | replacing the chunks of a version keeps the foreign keys, and is refused exactly when a chunk of that version already has a vector |
| KnowledgeTables.PurgeKeepsKeys | backend/repositories/knowledge.py:406-416 | the clean-up of superseded chunks keeps the foreign keys, every active chunk and every vector of one |
| KnowledgeTables.HiddenRowsStay | backend/repositories/knowledge.py:262-312 | a row that is gone or deleted takes no write |
| KnowledgeStore.Store.SetStatus | backend/repositories/knowledge.py:279-312 | the row changes, and 1 is returned, exactly when the document is visible and both expectations hold |
| KnowledgeStore.Store.StartNewVersion | backend/repositories/knowledge.py:262-277 | version and status of a visible document are replaced together |
| KnowledgeStore.Store.SoftDelete | backend/repositories/base.py:71-77 | a visible document becomes invisible, and nothing else changes |
| KnowledgeStore.Store.SupersedeForDocument | backend/repositories/knowledge.py:574-585 | every chunk of the document, and no other, becomes superseded |
| KnowledgeStore.Store.ReplaceForVersion | backend/repositories/knowledge.py:587-618 | all of the version is replaced, or nothing changes |
| KnowledgeStore.Store.Upsert | backend/repositories/knowledge.py:638-673 | a batch gets its vectors, or nothing changes when one of its chunks is gone |
| DocumentLifecycle.MarkKeepsExactly | backend/services/knowledge/ingestion.py:205-208 | the unguarded write of `chunked` keeps the invariant if and only if the document is gone, or the chunks of its current version are stored, or that version has none |
| DocumentRuns.StepKeeps | backend/services/knowledge/embedding.py:126-231 | every step of an embed task, an ingest, a re-ingest, a delete or the clean-up, that write under its condition, keeps the invariant that ties status, version, chunks, vectors and tasks |
| DocumentRuns.GuardExactly | backend/services/knowledge/ingestion.py:187-208 | on a run that condition says that the version the document now has has no text or some store before was one of it |
| DocumentRuns.ReadyIsComplete | backend/services/knowledge/embedding.py:183-231 | in every interleaving under that condition a visible ready document has a vector, under one model name, for each active chunk of its current version, and has chunks exactly when its version has text |
| DocumentRuns.GuardIsNeeded | backend/services/knowledge/ingestion.py:187-208 | wherever the condition is not met, the write has a continuation in which the document shows as ready and no model name covers its active chunks |
| DocumentRuns.ReadyWithoutVectors | backend/services/knowledge/ingestion.py:187-228 | without it there is a run from the empty tables to a ready document whose active chunk has no vector |
| DocumentRuns.ActiveIsCurrentExactly | backend/repositories/knowledge.py:587-618 | a step leaves active chunks only for current versions of documents that are there if and only if it is no store behind its time |
| DocumentRuns.ActiveAlong | backend/services/knowledge/ingestion.py:327-345 | on every run without such a store search has active chunks of current versions only |
| DocumentRuns.VersionsGrow | backend/services/knowledge/documents.py:188-230 | no step lowers a version or revives a deleted document |
| DocumentRuns.EnterExactly | backend/services/knowledge/embedding.py:150-182 | a task enters exactly when its document is visible, of the version it loaded and chunked, being embedded or ready |
| DocumentRuns.CleanupExactly | backend/repositories/knowledge.py:406-416 | the clean-up takes the superseded chunks of ready documents with their vectors, and nothing else |
| DocumentRuns.StaleTaskIsHarmless | backend/services/knowledge/embedding.py:401-467 | a task whose document has moved on, or is deleted, changes no document row |
| DocumentRuns.StaleForGood | backend/services/knowledge/embedding.py:126-231 | on every run, from the moment its document moves on a task never again changes a document row |
| DocumentRuns.StaleExhaustionExactly | backend/services/knowledge/embedding.py:233-268 | giving up on a task whose document has moved on changes that document if and only if its newer version is chunked or being embedded |
| DocumentRuns.StaleTaskFailsNewVersion | backend/services/knowledge/embedding.py:233-268 | a run from the empty tables on which a task of version 1 fails version 2 |
| DocumentService.IngestKeeps | backend/services/knowledge/ingestion.py:187-228 | an ingest that nothing comes between keeps the invariant without a guard; it is done exactly when the text is readable and no chunk of the version has a vector, and then leaves exactly its chunks active; otherwise the document is left failed or cleaned with its chunks as they were |
| DocumentService.Service.Reingest | backend/services/knowledge/documents.py:188-230 | refuses a document in process that is not stale; otherwise supersedes and opens the next version, as one step of the protocol |
| DocumentService.Service.Delete | backend/services/knowledge/documents.py:276-300 | supersedes and hides, as one step of the protocol |
| DocumentService.Service.Ingest | backend/services/knowledge/ingestion.py:123-228 | which outcome leaves which status and chunks: the steps of the protocol, one after the other |
| DocumentService.Service.GiveUp | backend/services/knowledge/embedding.py:233-268 | the write hits, and is reported, exactly when the document is chunked or being embedded |
| EmbeddingService.Service.PendingChunks | backend/services/knowledge/embedding.py:330-354 | the list holds each active chunk of the version without a vector under the name, once |
| EmbeddingService.Service.EmbedPending | backend/services/knowledge/embedding.py:272-328 | with a provider that reports one name the loop ends; every active chunk is then covered under the final name, and the number of texts sent is exactly the missing ones, plus at most one batch sent under the cached name |
| EmbeddingService.Service.Round | backend/services/knowledge/embedding.py:291-328 | one batch of the loop is one step of the protocol, and what it leaves keeps the loop's account |
| EmbeddingService.Service.Embed | backend/services/knowledge/embedding.py:183-231 | entering, the loop and what it ends with are steps of the protocol, whatever the provider answers, and the status of each ending is written out |
| EmbeddingService.Service.EmbedDocument | backend/services/knowledge/embedding.py:126-231 | the status each outcome leaves, and that the task is a run of the protocol's steps: a document it leaves ready is covered under the name it was promoted with, which is the one the next task looks up |
| EmbeddingService.TaskRunKeeps | backend/services/knowledge/embedding.py:126-231 | a task run by itself on tables that keep the invariant keeps it, and a ready document is then covered |
| EmbeddingService.SameName | backend/services/knowledge/embedding.py:291-320 | a batch answered under the name looked up keeps the loop's account of work and cost |
| EmbeddingService.OtherName | backend/services/knowledge/embedding.py:305-328 | a batch answered under another name restarts the list without losing track of what is covered or paid |
| EmbeddingService.TextsSentBound | backend/services/knowledge/embedding.py:272-328 | at most 64 texts beyond those missing under the reported name, and none when the cached name was right |
| ReindexPlan.PlanMeaning | backend/services/knowledge/reindex_plan.py:97-155 | the target is the stripped name asked for, or the current one when none is; a plan either re-cuts and leaves model and generation alone or opens the next generation and leaves the chunking version alone; it is refused exactly for a blank name or a re-cut with another model |
| ReindexPlan.EmbeddingComesLast | backend/services/knowledge/reindex_plan.py:158-171 | the stage order by itself, a helper: every job is in the embedding stage the round before it completes, and a re-cutting job cuts first |
| Reindex.CountSplits | backend/repositories/knowledge.py:793-803 | the count behind the gate is the covered active chunks plus the superseded ones that hold a target vector |
| Reindex.GateExact | backend/services/knowledge/reindex.py:362-375 | the gate opens if and only if superseded chunks with a target vector make up for the active chunks without one |
| Reindex.GateSound | backend/services/knowledge/reindex_plan.py:174-181 | with no such superseded chunk the gate opens if and only if every active chunk is covered |
| Reindex.SwitchIsComplete | backend/services/knowledge/reindex.py:362-455 | whatever else happened to the tables, with no superseded chunk holding a target vector: the job switches if and only if every active chunk is filed under the name asked for, the knowledge base is untouched otherwise, and search is then complete if and only if the provider reports that name or every active chunk is filed under the reported one too |
| Reindex.AliasSwitch | backend/services/rag/retrieval.py:477-500 | after a first advance that switches under an alias, search misses exactly the active chunks that had a vector under the requested name and none under the reported one |
| Reindex.EmbedAllReaches | backend/services/knowledge/reindex.py:382-423 | a run of calls that ends without an error has stored a vector of the target generation for every chunk of its list |
| Reindex.EmbedAllResolved | backend/services/knowledge/reindex.py:382-423 | with idempotent name resolution the whole list is filed under the resolved name, which becomes the job's |
| Reindex.AdvanceKeepsServing | backend/services/knowledge/reindex.py:341-380 | an advance that does not complete leaves the knowledge base alone and never shrinks what search ranks |
| Reindex.AdvanceFailsExactly | backend/services/knowledge/reindex.py:341-423 | an advance fails its job exactly when a call fails, and keeps what was stored before |
| Reindex.SettledNameCompletes | backend/services/knowledge/reindex.py:341-380 | when the provider keeps the requested name one advance completes and search then ranks every active chunk, whatever superseded chunks hold |
| Reindex.PurgeKeepsSearch | backend/services/knowledge/cleanup.py:94-120 | the clean-up of old vectors keeps what search ranks if and only if the provider reports the stored name, or search ranked nothing; otherwise it takes all of it |
| Reindex.EmptyBaseLosesAll | backend/services/knowledge/cleanup.py:94-120 | a knowledge base empty at its switch to an alias: what is ingested later is found until the clean-up deletes it |
| Reindex.TwoAdvancesComplete | backend/services/knowledge/reindex.py:341-455 | with idempotent resolution and chunks at rest a job completes within two advances, even with the clean-up in between; after two, search ranks every active chunk |
| Reindex.SupersededChunkMasks | backend/services/knowledge/reindex.py:341-455 | a superseded chunk with a target vector lets a job switch to a name for which search then misses an active chunk |
| ReindexService.Service.EmbedMissing | backend/services/knowledge/reindex.py:382-423 | the loop over batches of 64 stores batch by batch, follows the reported name and stops at an error |
| ReindexService.Service.Settle | backend/services/knowledge/reindex.py:362-375 | counts, records the clamped progress and switches in one transaction |
| ReindexService.Service.Switch | backend/services/knowledge/reindex.py:427-455 | the three columns and the job's status change together |
| ReindexService.Service.AdvanceEmbedding | backend/services/knowledge/reindex.py:341-380 | the name counted and switched to is the one read before the calls; an error marks the job failed |
| ReindexService.Service.PurgeSwitched | backend/services/knowledge/cleanup.py:94-120 | all vectors but those of the serving pair go, and their number is returned |
| ReindexRuns.StepKeeps | backend/services/knowledge/reindex.py:142-271 | the version columns move only when a job switches, each kind of job in its own way, and the model becomes the name the job was asked for |
| ReindexRuns.StartMeaning | backend/services/knowledge/reindex.py:142-205 | a rebuild is taken up exactly when no other is under way and there is a plan, as a pending job with that plan's aims |
| ReindexRuns.JobRunsThrough | backend/services/knowledge/reindex.py:142-455 | with nobody else at work and the name kept, a planned job runs through its stages to the switch; model, generation and both versions it leaves |
| ReindexRuns.NameFollows | backend/services/knowledge/reindex.py:341-455 | an advance counts under the name it read and hands the reported one on; the next switches to that |
| ReindexRuns.OthersAreFree | backend/services/knowledge/reindex.py:205-271 | a job may fail at any time, which changes nothing else and makes room for another; edits and the clean-up are never held up |
| ReindexRuns.VersionsNeverGoBack | backend/services/knowledge/reindex.py:142-271 | on every run no version column decreases and the indexed version never passes the settings' version |
| ReindexRuns.GenerationCountsSwitches | backend/services/knowledge/reindex.py:427-455 | the generation grows by exactly the number of completed re-embeddings |
| ReindexRuns.RechunkSettlesUnlessEdited | backend/services/knowledge/reindex_plan.py:87-94 | after a completed re-chunking another rebuild is asked for if and only if the settings were edited meanwhile |
| ReindexRuns.CompletedJobHasItsTarget | backend/services/knowledge/reindex.py:341-455 | on every run with a provider that keeps the names it is asked for, a completed re-embedding leaves the knowledge base on the name that was asked for |
| Rechunk.StepKeeps | backend/services/knowledge/reindex.py:284-337 | every step of the job, of other actors and of a crash keeps the invariant on cursor, list and history |
| Rechunk.SendMeaning | backend/services/knowledge/reindex.py:290-306 | what a turn of the loop makes of a document that is gone, being worked on and fresh, or anything else |
| Rechunk.RoundMeaning | backend/services/knowledge/reindex.py:284-337 | a round nothing interferes with: the next fifty documents are re-ingested up to the first that is being worked on and fresh, the cursor follows, and the job turns to the vectors exactly when the list is empty and every visible document is ready or failed |
| Rechunk.RoundIsSteps | backend/services/knowledge/reindex.py:284-337 | such a round is the steps of the protocol, one after the other |
| Rechunk.OthersAreFree | backend/services/knowledge/documents.py:188-300 | uploads, deletions, status writes and re-ingests by others are not restricted, and a crash costs only the round |
| Rechunk.RechunkSkipsNothing | backend/services/knowledge/reindex.py:284-337 | when the job starts computing vectors, every document there from the start and not deleted was re-ingested, at most once more than there were crashes, each time as a new version; and every document is then ready or failed |
| Rechunk.OnlyAVanishedDocumentFails | backend/services/knowledge/reindex.py:236-271 | the stage fails if and only if a listed document was deleted before its turn |
| Rechunk.Job.ForKbAfter | backend/repositories/knowledge.py:133-144 | the page holds the first visible documents behind the cursor, in id order, and misses none |
| Rechunk.Job.SendBatch | backend/services/knowledge/reindex.py:290-306 | the loop sends in order, stops at a busy document and fails at a vanished one |
| Rechunk.Job.AdvanceRechunk | backend/services/knowledge/reindex.py:284-337 | one undisturbed round is the steps of the protocol, one after the other |
| Tokens.EstimateConcat | backend/etl/tokens.py:41-47 | the estimate is subadditive and monotone and joining saves at most one token |
| Tokens.EstimateRange | backend/etl/tokens.py:41-47 | the estimate lies between a quarter of the length and the length |
| Tokens.EstimateOfBoth | backend/etl/tokens.py:16-47 | a token for every CJK character and one for every four others or part of four |
| Sentences.SplitSentences | backend/etl/chunk.py:238-261 | the loop yields the sentences of the specification |
| Sentences.SentencesConcat | backend/etl/chunk.py:238-261 | the sentences of any text concatenate back to it |
| Sentences.SentencesCutAtBoundaries | backend/etl/chunk.py:238-261 | cuts fall behind an end mark, behind a full stop before white space or before a line feed, and no sentence has text on both sides of such a place |
| Sentences.HardSplitBound | backend/etl/chunk.py:264-270 | hard slices concatenate back; each costs at most four budgets, or one when the text is all CJK or has none |
| Sentences.HardSplitIsEven | backend/etl/chunk.py:264-270 | hard slices are of one length, the greatest whose share of the cost stays within the budget |
| ChunkerTheorems.ChunkingLosesNothing | backend/etl/chunk.py:72-186 | over the chunks in order the new text is that of the non-heading blocks in order, code fenced and captions marked, white space aside, for every document, configuration and counter |
| ChunkerTheorems.SplitToFitText | backend/etl/chunk.py:202-226 | splitting a block to fit keeps its text |
| ChunkerBounds.ChunkRecord | backend/etl/chunk.py:161-186 | each chunk is numbered in order, counts its own tokens and reads heading, carry, new text; a carry is the tail of the chunk before it in the section |
| ChunkerSections.HeadlessChunks | backend/etl/chunk.py:72-186 | chunks in front of the first heading have neither heading nor path |
| ChunkerSections.SectionChunks | backend/etl/chunk.py:72-186 | for every document and every heading in it: each text chunk of its section reads that heading in front of its text and bears its path and title; its page is the heading's or that of the first block its text is from; it starts with the tail of the text chunk right before it, which was closed because the next part or block did not fit; tables and code are chunks by themselves; chunks before the heading stay as they were |
| ChunkerBounds.TailIsSuffix | backend/etl/chunk.py:188-200 | the carry is the stripped end of the chunk's text and costs at most the overlap |
| ChunkerBounds.TailIsLongest | backend/etl/chunk.py:188-200 | it is the longest run of whole last sentences within the overlap |
| ChunkerBounds.SplitToFitFits | backend/etl/chunk.py:202-236 | every piece that is no hard slice fits what the heading and carry leave |
| ChunkerBounds.PiecesArePacked | backend/etl/chunk.py:202-226 | every piece was closed by a sentence that did not fit behind it, and only a sentence that fits nowhere is cut |
| ChunkerBounds.ChunkSizes | backend/etl/chunk.py:124-236 | a text chunk whose last part was accepted is within the target; one without hard slices within the larger of target and heading plus one, plus overlap plus one; every one within four times the larger, plus overlap plus one |
| ChunkerOverlap.OverlapOverflows | backend/etl/chunk.py:161-236 | for every target and overlap of at least one, a plain document with a chunk above the target |
| ChunkerOverlap.TargetKeptIffNoOverlap | backend/etl/chunk.py:124-236 | all plain documents keep the target if and only if there is no overlap |
| ChunkBuilder.Builder.StartSection | backend/etl/chunk.py:111-116 | flushes, drops the carry and takes the heading |
| ChunkBuilder.Builder.AddAtomic | backend/etl/chunk.py:118-122 | flushes and emits the block whole |
| ChunkBuilder.Builder.AddText | backend/etl/chunk.py:124-145 | adds a block as a whole or piece by piece, flushing when it does not fit |
| ChunkBuilder.Builder.Flush | backend/etl/chunk.py:161-172 | emits the waiting parts and keeps their tail as carry |
| ChunkBuilder.Builder.Tail | backend/etl/chunk.py:188-200 | the loop from the back takes whole sentences while they fit the overlap |
| ChunkBuilder.Builder.SplitToFit | backend/etl/chunk.py:202-226 | the loop packs sentences into pieces and cuts overlong ones |
| ChunkBuilder.ChunkDocument | backend/etl/chunk.py:72-93 | the builder, block by block, yields the chunks of the specification |
| AuthSessions.StepKeeps | backend/services/identity/auth.py:73-91 | every step keeps the chain of registered jtis, the family key on its last and grace records on successors |
| AuthSessions.SameJtiSameToken | backend/services/identity/auth.py:216-275 | on every run two successful refreshes with one jti hand out one token |
| AuthSessions.AnswersFollowTheChain | backend/services/identity/auth.py:216-275 | a token handed out is the next of the presented one in its family's chain |
| AuthSessions.DeadForGood | backend/services/identity/auth.py:239-268 | a dead family is never revived and no refresh of it succeeds, under way or with live grace records |
| AuthSessions.DiesExactlyWhen | backend/services/identity/auth.py:73-91 | a living family dies if and only if by log-out, expiry, an active account whose version is not the token's at the user check, or a jti neither current nor in grace at the turn |
| AuthSessions.CheckSigns | backend/services/identity/auth.py:245-262 | at the user check a token is signed if and only if the account is there, active and of the token's version, and it carries that family, user and version |
| AuthSessions.AnswersKeepOwner | backend/services/identity/auth.py:216-275 | on every run a token handed out belongs to the user and version of the token presented |
| AuthSessions.TwoTabs | backend/services/identity/auth.py:462-503 | two overlapping refreshes with the current token share one answer and keep the session if and only if there is a grace period |
| AuthService.Service.RunRotate | backend/services/identity/auth.py:73-91 | the script's answer and the keys it leaves |
| AuthService.Service.RotateFamily | backend/services/identity/auth.py:462-503 | which token or error the caller gets for each answer of the script |
| AuthService.Service.IssuePair | backend/services/identity/auth.py:429-460 | a log-in opens its family on the token it signs |
| AuthService.Service.Refresh | backend/services/identity/auth.py:216-275 | look, user check, signing and rotation in order, each with its refusal and what it deletes |
| AuthService.Service.Logout | backend/services/identity/auth.py:279-307 | removes the family of the token and nothing else |
| AuthService.RefreshMeaning | backend/services/identity/auth.py:216-275 | over the keys and the user row: exactly when each answer is given, revoked, disabled, outdated, replayed or granted; the token granted is signed for the presented family, user and version, or is the one kept in grace; which keys are left |
| AuthService.NextRefreshSees | backend/services/identity/auth.py:216-307 | how a log-in, a log-out, an expired key and a changed account show in the answer of the next refresh |
| AuthService.StepsAreRefresh | backend/services/identity/auth.py:216-275 | the interleaved steps taken in a row are one refresh |
| Gateway.AttemptMeaning | backend/ai/gateway/__init__.py:358-383 | one attempt relays the provider's deltas unchanged up to `done` and adds a usage only when none was reported |
| Gateway.OneCallDecides | backend/ai/gateway/__init__.py:291-356 | the stream is that of the first call that is not silent, or of the last, with a quarter of the characters as its usage when none was reported; every earlier call in order of models and attempts was silent |
| Gateway.StreamsEndWell | backend/ai/gateway/__init__.py:291-383 | a yielded stream has one terminal delta, last, and before it as many usages as the deciding call reported, or one; exactly one if and only if that call reported at most one |
| Gateway.TwoUsages | backend/ai/gateway/__init__.py:358-383 | a provider that reports twice makes a stream with two usages |
| Gateway.Stream.RunOnce | backend/ai/gateway/__init__.py:358-383 | the loop of one attempt: what is handed on, the state it leaves and the error it ends with |
| Gateway.Stream.TryModel | backend/ai/gateway/__init__.py:314-356 | the attempts with one model |
| Gateway.Stream.Run | backend/ai/gateway/__init__.py:291-356 | the nested loops yield the specified stream, nothing when they raise, with at most models times attempts calls |
| ChatTurn.CloseMeaning | backend/services/conversation/chat.py:470-608 | closing either raises and changes nothing, or saves the row once and then settles, cites and ends in order as far as nothing fails |
| ChatTurn.CloseExactly | backend/services/conversation/chat.py:470-608 | operation by operation: the trace, the save, the bill, the settlement, the citations, the terminal event each take effect exactly when they and all before them succeed |
| ChatTurn.LoopMeaning | backend/services/conversation/chat.py:251-331 | from any delta on, the loop closes once or leaves with what it has gathered; it leaves with an exception behind a saved row exactly when closing the stream of a saved done fails |
| ChatTurn.TurnEndsOnce | backend/services/conversation/chat.py:200-392 | for every failure: in all runs but those saved twice, row, bill, settlement, citations, terminal event and slot happen once at most and in this order, and readers saw a prefix of what is saved; a turn is saved twice, completed and then failed, exactly when closing the stream of a saved done fails and the failed row can be saved; the row stays unsaved, the slot out and the exception escapes exactly when named operations fail |
| ChatTurn.DoneThenFailed | backend/ai/gateway/__init__.py:358-430 | only the close of a stream that is done fails: a complete answer is saved, settled and announced, and then saved as failed, settled again and followed by an error event |
| ChatTurn.EveryTurnEndsOnce | backend/services/conversation/chat.py:200-392 | the same over the gateway's stream for every provider |
| ChatTurn.UndisturbedTurn | backend/services/conversation/chat.py:200-392 | with nothing failing and no stop, the exact row, settlement, bill and event sequence of a turn, written out of the deltas, for a stream that ends, breaks off or never begins |
| ChatTurn.StoppedTurn | backend/services/conversation/chat.py:253-276 | with nothing failing and a stop found before a delta: the text so far saved as interrupted under the usage reported, or none without text, or an estimate of the prompt and that text; the same settled, billed and announced |
| ChatTurn.OneFailureIsAbsorbed | backend/services/conversation/chat.py:200-392 | with at most one failing operation, a gateway that raises counting as one, the row is saved, once unless that operation is the close of a stream that is done, and the turn raises only if it is the slot that cannot be returned |
| ChatTurn.ComposeFails | backend/services/conversation/chat.py:226-392 | when only composing the request fails, the turn is saved and announced as failed, with no text, no bill and no citations |
| ChatTurn.TwoFailuresRaise | backend/services/conversation/chat.py:226-392 | with composing and the save both failing the exception leaves and the row stays |
| ChatTurn.Service.Wind | backend/services/conversation/chat.py:496-544 | the guarded block after the save stops at a failure and swallows it |
| ChatTurn.Service.End | backend/services/conversation/chat.py:546-608 | citations, save, then the guarded block |
| ChatTurn.Service.LeaveStream | backend/services/conversation/chat.py:248-252 | leaving the block around the stream closes it, and a failure to do so replaces the exception in flight |
| ChatTurn.Service.Consume | backend/services/conversation/chat.py:248-331 | the loop over the deltas with its stop check, its four ways out and the close of the stream on each |
| ChatTurn.Service.Answer | backend/services/conversation/chat.py:226-331 | the `try`: the request, the opening event, the gateway and the loop |
| ChatTurn.Service.Generation | backend/services/conversation/chat.py:212-392 | the body and its `except` clauses |
| ChatTurn.Service.Run | backend/services/conversation/chat.py:200-210 | the slot is returned on every exit, and a failure to return it replaces the exception in flight |
| StreamBuffer.Buffer.Append | backend/core/streams.py:85-101 | a number is used up whether or not the event is stored, so numbers rise but may leave holes |
| StreamBuffer.Buffer.Read | backend/core/streams.py:103-123 | exactly the events numbered above a number, in order, whatever numbers are missing |
| StreamBuffer.Sse | backend/api/v1/conversations.py:317-352 | the loop sends what the specification says for every sequence of waits |
| StreamBuffer.ServeIsSlice | backend/api/v1/conversations.py:317-352 | over any waits on a buffer that stays, a connection sends exactly what one read at its last wait would give, up to the first terminal event |
| StreamBuffer.DueIsSlice | backend/api/v1/conversations.py:317-352 | and that is the log from the first greater number on, up to the first terminal event |
| StreamBuffer.DueExactly | backend/api/v1/conversations.py:317-352 | the same without the names of the model: from the first number above on, up to the first `done` or `error` |
| StreamBuffer.ServeEndsOnce | backend/api/v1/conversations.py:317-352 | whatever the buffer does, at most one `done` or `error` and nothing after it |
| StreamBuffer.GoneBufferEnds | backend/api/v1/conversations.py:330-384 | a vanished buffer ends the connection at the second empty wait, under the last real number |
| SseWire.HeaderExactly | backend/api/v1/conversations.py:278-289 | which headers are read, which refused and which break the conversion, and that event numbers round-trip |
| SseWire.DecRoundTrip | backend/api/sse.py:29-36 | the decimal text of a number is ASCII digits and reads back |
| SseWire.WireRoundTrip | backend/api/sse.py:29-45 | the text of a connection parses, by section 9.2.6 of the WHATWG HTML standard, to its events; cut anywhere, to a prefix of them |
| SseWire.ResumeIsExact | backend/api/v1/conversations.py:244-352 | over any connections cut anywhere the client gets a run of the log without gap or repetition, never past the first terminal event |
| SseWire.ResumeIsComplete | backend/api/v1/conversations.py:244-352 | once a connection is not cut, all the client got together is what one read would have given, up to the first terminal event |
| Ranking.TopIsUnique | backend/rag/pipeline.py:110-114 | under a strict total order there is one list of the first elements |
| RankFusion.RankIsFirst | backend/rag/pipeline.py:97-105 | a repeated chunk counts at its first position in a route |
| RankFusion.BestIsLeast | backend/rag/pipeline.py:107-108 | the tie-break is the least pair of rank and route |
| RankFusion.FuseCandidates | backend/rag/pipeline.py:61-114 | the output is the top of the distinct chunks by summed reciprocal rank, best place and id, each with its fused score and first-seen chunk |
| RankFusion.FusedIsUnique | backend/rag/pipeline.py:61-114 | that specification determines the list |
| RankFusion.FusedOrder | backend/rag/pipeline.py:107-114 | a hit comes before every chunk that is later or left out by score, then best rank, then the first route of that rank; ids never decide |
| RankFusion.HitIsFirstSeen | backend/rag/pipeline.py:97-114 | a hit is the chunk as the first route that has it gives it |
| RankFusion.BetterEverywhereWins | backend/rag/pipeline.py:61-114 | wherever a chunk comes in the output, one ranked before it in every route that has it comes earlier |
| RankFusion.OneRouteKeepsItsOrder | backend/rag/pipeline.py:61-114 | one route without repeats keeps its order |
| ContextSelection.GateKeepsRanks | backend/rag/pipeline.py:117-143 | on a descending route the threshold cuts a tail, never the first, and moves no rank |
| ContextSelection.SelectContext | backend/rag/pipeline.py:167-193 | the selection is the longest prefix within limit and budget, and never empty without need |
| Paging.PageForConversation | backend/repositories/conversation.py:175-194 | a page is the first rows behind the cursor, and the cursor points behind its last row exactly when more follow |
| Paging.PageMeaning | backend/repositories/base.py:92-108 | a page is in the order of times and, among equal times, ids; what is on it, when there is a next one, and that nothing behind the cursor is skipped |
| Paging.WalkShowsEachOnce | backend/repositories/conversation.py:175-194 | with rows inserted and deleted between pages, rows come in order, none twice, and a row there throughout is shown |
| Paging.WalkAtRest | backend/repositories/conversation.py:175-194 | on a table at rest a walk that has ended shows all of it in `Pages` pages |
| Paging.WalkStops | backend/repositories/base.py:92-108 | and no walk is longer, so one of that length has ended |
| Paging.PagesIsCeiling | backend/repositories/base.py:92-108 | that number is the rounded-up quotient, and at least one |
| Cursors.EncodedText | backend/common/cursors.py:32-39 | the text is URL-safe and has the unpadded length of section 5 of RFC 4648 |
| Cursors.EncodedLast | backend/common/cursors.py:32-39 | the bits left over in its last letter are zero |
| Cursors.RefusedExactly | backend/common/cursors.py:42-56 | of all texts in the letters of either alphabet exactly those with one letter left over are refused |
| Cursors.CursorRoundTrip | backend/common/cursors.py:32-56 | the lenient decoder gives every payload back |
| KbConfig.TableIsWellFormed | backend/services/knowledge/kb_config.py:94-122 | a limit that follows another parameter follows one with a fixed limit, which is why the reader's recursion ends |
| KbConfig.WriterMatchesReader | backend/services/knowledge/kb_config.py:190-297 | the writer takes a section if and only if the reader gives each of its parameters back unchanged |
| KbConfig.AcceptedReadsBack | backend/services/knowledge/kb_config.py:143-187 | an accepted configuration is stored as it came and reads back unchanged |
| KbConfig.GarbageReadsInRange | backend/services/knowledge/kb_config.py:238-297 | for any layers the reader gives the default if and only if no layer holds an acceptable value, else a value in range |
| KbConfig.FirstLayerWins | backend/services/knowledge/kb_config.py:238-271 | a bad value falls back to the next layer, not to the default |
| KbConfig.ReadsNearest | backend/services/knowledge/kb_config.py:238-297 | the most specific layer with a value of the right kind is read, and the value is that one or the end of the range it lies beyond |
| KbConfig.OverlapBelowTarget | backend/services/knowledge/kb_config.py:316-348 | an overlap from a layer is below the effective target if and only if that is positive; the default overlap is not clamped |
| KbConfig.DefaultOverlapCanExceed | backend/services/knowledge/kb_config.py:238-271 | the default overlap next to a small target in a layer |
| KbConfig.Read | backend/services/knowledge/kb_config.py:238-271 | the loop over the layers, and that only unacceptable values are reported |
| KbConfig.ValidateParamSections | backend/services/knowledge/kb_config.py:143-205 | the loops report every bad field at once and keep the sections as they came |

## Left out

- One version of a document always yields text or never does; the stage rows, artifacts and idempotency keys of an ingest are not modelled.
- The gate of a rebuild is one transaction with whatever tables it finds; the rescue of stuck jobs is not interleaved with a live advance, and two workers never advance one job at a time.
- EmbeddingService.Service.EmbedPending: one provider name per run; a provider that alternates names appears in `DocumentLifecycle`, where the loop need not end.
- Reindex.AdvanceEmbedding takes the chunks as at rest during its calls; `Reindex.SwitchIsComplete` covers any change before the gate.
- Rechunk models documents, not their chunks, and counts the job's own re-ingests; users' re-ingests are free steps.
- Cancellation of a chat task and shutdown draining: the once-only result is for tasks that are not cancelled.
- ChatTurn.TurnEndsOnce: closing the stream is one operation of any outcome, also at the usage before an error, where nothing is left to close; an operation that fails has had no effect; a commit whose answer is lost is not modelled.
- Gateway.StreamsEndWell: a provider's stream that a time limit abandons and that then fails to close with an error the gateway does not translate.
- JWT signatures, password hashing, the deny list of access tokens and log-in throttling; identifiers are drawn fresh and tokens cannot be forged.
- JSON text: event payloads and cursor payloads are opaque; `cursor_key` is not part of this model.
- SseWire.ResumeIsExact: the 409 for a connection opened on a buffer that is gone, and the client's own back-off.
- SseWire.HeaderExactly: the length limit of `int` on very long digit runs is not modelled.
- KbConfig.ValidateParamSections: error messages and their order; bad fields form a set.
- `page_for_user`, whose sort key changes when messages arrive; deletion and purge jobs after the retention window.
- Floating point: fused scores, thresholds and the hard split's step are exact.
- Retrieval SQL, rerank and chat adapters, usage and quota services, notifications, routing, permissions and the frontend beyond the rule for the last event id.
- Extraction and cleaning before the chunker, and language detection.
