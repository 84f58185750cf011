# Neuralgram in Dafny

A model of the stateful cores of Neuralgram, a service that ingests documents, extracts and scores
chunks in the background, folds them into summary trees, and meters every model call. Each module
follows one component:

- **Summary trees** (`Forest`, `Digits`, `TreeTheorems`, `SourceTree`, `TreeRuns`, `TreeRecovery`).
  The rows behind the trees of every (tenant, source); the two commits that change them, `seal` and
  one fold of `_cascade`; what every run of such commits keeps, with a crash possible after any of
  them; and the handlers as a class, with what whole runs of them keep and when they make a crash
  good. Open nodes are a base-`cascade_size` counter over a forest whose leaves are the sealed chunks.
- **Queue, workers, chunk lifecycle** (`Jobs`, `JobQueue`, `Workers`, `WorkersAllRuns`, `WorkersRuns`,
  `WorkersTimely`, `WorkersBookkeeping`, `WorkersLate`, `WorkersDue`, `WorkersFollowUp`, `Lifecycle`).
  The queue's methods as a class; and a state machine in which any number of workers interleave the
  clock reading, locking read and commit of a claim, the reads and commits of the handlers, and the
  steps of `ack` and `fail`, with cancellations, errors and crashes anywhere. `ack` and `fail` run
  apart from the worker, which waits for them behind a shield, without it once it is cancelled, or,
  for a kind with no handler, with no shield at all. Some theorems hold of all runs; others of timely
  runs, in which a worker only acts while its lease covers the clock; `WorkersLate` is about the
  writes that come later than that.
- **Metering** (`Metering`, `MeteredCalls`, `MeteredRuns`, `CapsAreTight`). The meter's methods as a
  class, and a state machine of interleaved calls that wait for an advisory lock, check, call a
  provider and record. The lock key is an arbitrary function of the tenant. The bounds on spending are
  proved of every run, of the calls it records as of the events they leave, and met by some.
- **Chunker** (`Text`, `Chunker`, `ChunkerTheorems`, `NormalText`, `GreedyMerge`, `RawRuns`). The
  loops, the functions they compute, and what the result keeps of the text.
- **Failover** (`Health`, `Failover`, `FailoverHealth`). The circuit breaker as a function of its
  history, and the nested retry loop over it.
- **Content store and erasure** (`Vault`, `VaultFaults`, `VaultRuns`, `Erasure`). Rows, vault files
  and jobs. An exception or the death of the process is possible at the start, at every write (which
  may leave part of a file), at the commit, between the commit and the end of the session, and at
  every unlink of the clean-up. Theorems about one call, and about every serial run of both.
- **Rank fusion** (`Retrieval`) and **compression** (`Reducers`, `Folding`, `FoldedLines`,
  `Compression`).
- `Rows` is ordered, limited selection from a table, where rows with equal keys may come in any order.

Conventions. A database transaction is atomic, and a row lock or unique constraint does what SQL
says. A fresh uuid is some identifier not in use. `sha256` is injective, and tenant ids hold neither a
newline nor a path separator. Clock readings, model replies, embeddings, locks' hash values and faults
are parameters or arbitrary choices. Money is in micro-dollars.

## Where the code does not do what is said of it

- Words of a document. If every run of characters other than ' ' *in the document body* is shorter
  than half the budget, a word can still be cut: trimming line ends joins two runs that a trailing
  blank kept apart. `RawRuns.ShortRawRunsAreNotEnough` gives such a body.
  `ChunkerTheorems.ChunksKeepWords` gives the exact condition (no cut between two characters of
  ink), and `ChunkerTheorems.ShortRunsKeepWords` the sufficient one, measured on the normalized text.
- Rank fusion. A chunk both searches found need not rank above one that only one found:
  `Retrieval.BothFirstIff` shows that it must exactly when `limit <= rrf_k + 1`.
- `cascade_size` 1 (or 0). After a seal the fold guard holds after every number of passes, so the loop
  never ends: `TreeTheorems.CascadeOfOneNeverStops`. Nothing in the constructor forbids it; the class
  here requires at least 2.
- A cascade cut short. Nothing resumes it: a fold left pending at level 2 or above waits until a carry
  gets there, for exactly as many seals as the counter below it has left
  (`TreeRecovery.RecoveryTime`).
- `max_tokens` 0. The cut is at 0 and no number of turns uses up a paragraph with ink:
  `Chunker.ZeroBudgetNeverEnds`.
- Cancelled bookkeeping. `_finish` promises that a graceful stop never strands a finished job. It
  survives one cancellation: a second one reaches the ack or fail itself (`workers.py:116`), and the
  `fail` of an unknown kind has no shield (`workers.py:94`). `WorkersBookkeeping.DoubleCancelStrands`
  and `UnshieldedCancelStrands` are runs that leave the job leased;
  `WorkersBookkeeping.StrandedIffInterrupted` says exactly when a timely run does.
- Late bookkeeping. `ack` and `fail` look at neither owner nor status, and the lifecycle writes do not
  look at the stage. `WorkersLate.LateExtractionRewindsAChunk` and `LateFailRevivesADoneJob` are runs
  from an empty queue in which a worker past its lease drops an admitted chunk and revives a done job;
  `WorkersLate.UndoesIff` gives, write by write, the exact states in which it does harm, and
  `WorkersLate.HarmlessRunsUndoNothing` shows that runs without such a write are in order, late or not.
- Clean-up of the vault. `persist` promises that a failed call is rolled back and its files removed.
  Its `try` also covers the end of the session, after the commit: an exception there removes the files
  of rows that are committed. `VaultFaults.CancelledAfterTheCommit` is such a call, and
  `Vault.LostFilesStayLost` shows that storing the drafts again does not repair it. Nothing else costs
  a row its file: a call does so if and only if it commits a new row, an exception follows the commit,
  and the first unlink works (`Vault.ContentStore.Persist`); and every row has its file throughout a
  run if and only if the run has no such call (`VaultRuns.AlwaysVaultedIff`). Deaths of the process do
  no harm at any step.
- A torn file. The file whose own write failed is not yet on the clean-up's list and stays behind:
  `VaultFaults.DiskFull` is such a call, `Vault.TornFileIff` the exact condition. No row refers to it.
- The demo family. Its cap is shared but its locks are per tenant. `CapsAreTight.FamilyBoundIsMet`
  shows for any number of family tenants with locks of their own that some run spends the cap plus a
  largest call for each, less one micro-dollar; `MeteredCalls.EveryRunRespectsTheCaps` that none spends
  more. Likewise a tenant's own cap, with one call: `CapsAreTight.CapBoundIsMet`.

## Model

| member | source | states |
|---|---|---|
| Forest.SealKeepsForest | src/neuralgram/memory/trees.py:74-111 | sealing buffered chunks keeps every sealed chunk under exactly one level-1 node and every consumed node under exactly one node a level up in the same tenant and source |
| Forest.FoldKeepsForest | src/neuralgram/memory/trees.py:166-193 | so does folding open nodes of one level into a node of the next |
| Forest.SealCounts | src/neuralgram/memory/trees.py:90-111 | a seal opens one level-1 node of its own tree and changes no other count of any tree |
| Forest.FoldCounts | src/neuralgram/memory/trees.py:166-193 | a fold closes `cascade_size` nodes at its level and opens one a level up, in its own tree only |
| Forest.FoldKeepsTally | src/neuralgram/memory/trees.py:150-194 | conservation: at each level the nodes are the open ones plus `cascade_size` times the nodes above |
| Forest.StepKeepsSound | src/neuralgram/memory/trees.py:48-194 | any one commit (seal, fold, or a change of chunks that are not sealed) keeps forest and tally |
| Forest.EveryRunIsSound | src/neuralgram/memory/trees.py:48-194 | forest and tally hold after every sequence of commits, whatever crashed between them |
| TreeTheorems.OpenNodesAreDigits | src/neuralgram/memory/trees.py:68-194 | after any run, the open level-L nodes number digit L-1 of the seal count in base `cascade_size` at every level, exactly when no level can fold |
| TreeTheorems.FoldsOfSettledTree | src/neuralgram/memory/trees.py:113-194 | n seals with no fold pending caused exactly (n - digit sum of n) / (c - 1) folds, and the open nodes number the digit sum |
| TreeTheorems.SummariesAreBounded | src/neuralgram/memory/trees.py:113-194 | in every run n >= 1 seals and their folds are at most n + (n - 1) / (c - 1) summaries |
| TreeTheorems.CascadeOfOneNeverStops | src/neuralgram/memory/trees.py:150-194 | with `cascade_size` below 2 the cascade after a seal can make any number of passes, and after any number of them, whatever they took, the guard holds a level up |
| TreeTheorems.OpenNodesPartitionSealedChunks | src/neuralgram/memory/trees.py:74-111 | expanding the open nodes of a tree, in any order, lists every sealed chunk of that tenant and source exactly once and nothing else |
| TreeTheorems.OneCoverPerLevel | src/neuralgram/memory/trees.py:166-193 | two nodes of one level never cover the same chunk |
| TreeTheorems.CoverageOfNode | src/neuralgram/memory/trees.py:84-111 | a level-L node covers at most `buffer_size` * c^(L-1) chunks, and exactly that many exactly when every seal under it took a full buffer |
| SourceTree.SourceTree.AppendBuffer | src/neuralgram/memory/trees.py:48-66 | buffers an admitted chunk and seals exactly when the buffer is full; skips any other chunk; uninterrupted, the buffer ends below `buffer_size`, the seal took a full buffer, and no fold is left pending; trees of other scopes are untouched |
| SourceTree.SourceTree.Seal | src/neuralgram/memory/trees.py:68-115 | seals the oldest buffered chunks, at most `buffer_size`, into one new level-1 node, or returns nothing exactly when there is nothing to take; the open nodes of every level it leaves, whole or cut short |
| SourceTree.SourceTree.FlushStale | src/neuralgram/memory/trees.py:117-133 | seals exactly when some buffered chunk is at least `max_age` old; a buffer short of full is short of full after it |
| SourceTree.EventKeepsShort | src/neuralgram/memory/trees.py:48-133 | an append or a flush that is not interrupted leaves every buffer below `buffer_size` and no fold pending, if so it found them |
| SourceTree.BuffersStayShort | src/neuralgram/memory/trees.py:48-133 | over whole crash-free runs of both handlers, with other work on chunks in between, every buffer is below `buffer_size` and no fold is pending after each event |
| SourceTree.SourceTree.Cascade | src/neuralgram/memory/trees.py:150-194 | terminates for `cascade_size` >= 2 (each pass leaves fewer open nodes), folds once at every level from its start up to where it stops, adds nodes only above its start level, and leaves no fold pending if at most one was; each new node lists in ascending order the `cascade_size` lowest ids of the open nodes its fold found |
| TreeRecovery.CarryLaw | src/neuralgram/memory/trees.py:150-194 | whatever is pending where, a seal changes the open nodes of a level exactly if every level below would fold with one node more: by one, or, where it would fold itself, by 1 - c, so a backlog shrinks by c - 1 per cascade that gets there |
| TreeRecovery.CrashLeavesOnePending | src/neuralgram/memory/trees.py:111-194 | a seal cut short in a settled tree leaves at most one fold pending, at the level its cascade stopped at |
| TreeRecovery.SealRecoversIff | src/neuralgram/memory/trees.py:150-194 | a seal makes a fold pending at level L good exactly when the open nodes below L, as a number, stand at c^(L-1) - 1; otherwise it stays pending and the number goes up by one |
| TreeRecovery.RecoveryTime | src/neuralgram/memory/trees.py:48-194 | over every crash-free run from there, in any mix of scopes, the fold is pending for exactly c^(L-1) minus that number seals of its scope, and from then on nothing is |
| TreeRecovery.CrashIsMadeGood | src/neuralgram/memory/trees.py:48-194 | so c^(L-1) seals make any seal cut short in a settled tree good |
| TreeRuns.RunsCount | src/neuralgram/memory/trees.py:48-194 | in every crash-free run from empty tables, after each event, every buffer is below `buffer_size` and the open nodes of every tree are the digits of its number of seals |
| TreeRuns.CoverageInRuns | src/neuralgram/memory/trees.py:48-133 | in every such run a level-L node covers `buffer_size` * c^(L-1) chunks if no flush sealed a node under it, and fewer otherwise |
| SourceTree.FoldCarries | src/neuralgram/memory/trees.py:150-194 | one pass lowers the open-node count and moves the single pending fold one level up |
| SourceTree.SealIncrements | src/neuralgram/memory/trees.py:68-115 | an uninterrupted seal takes the open nodes from the digits of n to those of n + 1, with exactly one fold per carry |
| Digits.CarriesAndDigitSum | src/neuralgram/memory/trees.py:150-194 | the carries of counting to n are (n - digit sum) / (c - 1) |
| Rows.SelectFirst | src/neuralgram/memory/trees.py:74-88 | `ORDER BY ... LIMIT`: distinct rows, sorted, and none left out that should come before one returned |
| JobQueue.JobQueue.Enqueue | src/neuralgram/memory/queue.py:50-75 | accepts a job exactly when no row has its dedupe key, and then adds just that row; the job can be claimed at t exactly when it has no `run_after` or t has reached it |
| JobQueue.JobQueue.SelectForUpdate | src/neuralgram/memory/queue.py:88-106 | locks the oldest runnable row nobody else has locked, or none exactly when there is none |
| JobQueue.JobQueue.Claim | src/neuralgram/memory/queue.py:77-119 | leases the oldest runnable unlocked row and no other; the row can be claimed again exactly once that lease is over |
| JobQueue.InTurn | src/neuralgram/memory/queue.py:88-106 | of two jobs enqueued one after the other, both due, the first is claimed first |
| JobQueue.JobQueue.Ack | src/neuralgram/memory/queue.py:121-129 | makes the row done and never runnable, whatever its state; does nothing to a missing row |
| JobQueue.JobQueue.Fail | src/neuralgram/memory/queue.py:131-155 | requeues, and then the job can be claimed exactly from 30 seconds on, or fails the row for good, exactly when this was the last retry; raises for a missing row |
| WorkersDue.BackoffIsKept | src/neuralgram/memory/queue.py:131-155 | in every run, after a fail that requeues its job every later claim of the job comes at least 30 seconds later |
| WorkersDue.RunAfterIsKept | src/neuralgram/memory/queue.py:50-106 | in every run, a job accepted with a `run_after` is never claimed before it |
| WorkersAllRuns.StepKeepsRows | src/neuralgram/memory/queue.py:50-155 | every step keeps dedupe keys unique, a row leased exactly when it names an owner and an expiry, and rows and their task, key and age for good |
| WorkersAllRuns.StepKeepsClaimers | src/neuralgram/memory/queue.py:88-118 | a row selected by a claim stays as runnable as it was until that claim commits, and no two claims hold one row |
| WorkersAllRuns.ClaimTakesOldest | src/neuralgram/memory/queue.py:89-118 | in every run each committed claim took the oldest row that was runnable and unlocked in the table its locking read saw, and a row is runnable still when its claim commits |
| WorkersRuns.PicksAreReal | src/neuralgram/memory/queue.py:89-118 | what a claim is recorded to have seen is the table, and the locks, of an earlier moment of the run at which it selected that row |
| WorkersRuns.EveryClaimTookOldest | src/neuralgram/memory/queue.py:77-119 | so in every run from an empty queue, however interleaved, each committed claim took the oldest runnable unlocked row of the moment it selected it |
| WorkersAllRuns.StepKeepsLog | src/neuralgram/memory/queue.py:77-155 | between two claims of one job the first lease had run out, or an ack or fail of the job came between |
| WorkersAllRuns.EveryRunIsConsistent | src/neuralgram/memory/queue.py:50-155 | all of this holds in every run, late and crashed workers included |
| WorkersAllRuns.KeyAcceptedOnce | src/neuralgram/memory/queue.py:57-75 | a dedupe key once accepted is refused at every later point of every run |
| WorkersTimely.ChunksStep | src/neuralgram/memory/extraction.py:96-122 | a timely step moves a chunk only along its lifecycle, and only the step of the right handler does, although extraction writes unconditionally |
| WorkersTimely.OneLiveWorkerPerTask | src/neuralgram/memory/queue.py:57-119 | unique keys and leases together: two workers within their leases never run jobs with the same task |
| WorkersTimely.StepKeepsLive | src/neuralgram/memory/workers.py:67-117 | what a handler read under guard (pending, admitted, retry count) is still true when it writes, while its lease lasts |
| WorkersTimely.StepKeepsRetries | src/neuralgram/memory/queue.py:131-155 | retry counts stay below the limit and equal it exactly on failed rows; done and failed rows never change |
| WorkersBookkeeping.StrandedIffInterrupted | src/neuralgram/memory/workers.py:90-117 | in every timely run, a wait for an ack or fail ends with the job still leased to the worker exactly when, before the commit, came a second cancellation, a first one of an unshielded `fail`, an error of the bookkeeping or a crash; and then the worker has stopped |
| WorkersBookkeeping.DoubleCancelStrands | src/neuralgram/memory/workers.py:60-117 | a timely run from an empty queue in which two cancellations leave a finished job leased and its worker stopped |
| WorkersBookkeeping.UnshieldedCancelStrands | src/neuralgram/memory/workers.py:90-95 | the same with one cancellation during the `fail` of an unknown kind |
| WorkersTimely.TimelyRunsAreOrderly | src/neuralgram/memory/workers.py:67-117 | over whole timely runs: chunks move only pending to admitted or dropped, admitted to buffered to sealed; done and failed stay; retries stay bounded |
| WorkersRuns.TimelyFromStart | src/neuralgram/memory/workers.py:67-117 | the same between any two points of any timely run from an empty queue |
| WorkersFollowUp.WrittenFromStart | src/neuralgram/memory/extraction.py:111-125 | in every timely run, an extraction past its commit that goes on to enqueue has its chunk at or past admitted, and one that does not has it dropped |
| WorkersFollowUp.FollowUpIsEnqueued | src/neuralgram/memory/extraction.py:119-125 | a worker that has admitted its chunk and goes on uninterrupted leaves a job keyed `buffer:` and the chunk, for good |
| WorkersFollowUp.ChunkJobsAreApart | src/neuralgram/memory/extraction.py:124-125 | dedupe keys tell the jobs of different chunks apart, and a chunk's extraction from its append |
| WorkersLate.UndoesIff | src/neuralgram/memory/queue.py:121-155 | of all steps, timely or late, only three lifecycle writes, ack and fail ever move a chunk backwards or change a finished job, and each exactly in the states named for it; a timely step in an orderly state never does |
| WorkersLate.HarmlessRunsUndoNothing | src/neuralgram/memory/workers.py:67-117 | every run none of whose steps is in such a state, however late, keeps chunk stages and finished jobs over its whole length; timely runs are such runs |
| WorkersLate.AckHarmsIff | src/neuralgram/memory/queue.py:121-129 | an ack overwrites a finished row exactly when the job has failed, and takes a lease exactly when it is another worker's |
| WorkersLate.FailHarmsIff | src/neuralgram/memory/queue.py:131-155 | a fail overwrites a finished row unless the job failed from the retry count it read, and takes a lease exactly when it is another worker's |
| WorkersLate.LateExtractionRewindsAChunk | src/neuralgram/memory/extraction.py:96-122 | a run from an empty queue, timely up to its last step, in which a worker past its lease drops the chunk another has admitted |
| WorkersLate.LateFailRevivesADoneJob | src/neuralgram/memory/queue.py:131-155 | a run from an empty queue, timely up to its last step, in which a late fail turns a done job into a queued one, or a failed one at the retry limit |
| Metering.UsageMeter.Sum | src/neuralgram/router/metering.py:107-135 | the total cost of the events of a tenant or of a prefix |
| Metering.UsageMeter.CheckCap | src/neuralgram/router/metering.py:137-158 | passes exactly when both the demo family's shared cap and the tenant's own cap, where they apply, exceed the recorded spend |
| Metering.UsageMeter.CheckSearchLimit | src/neuralgram/router/metering.py:201-225 | passes exactly when the tenant is no signup tenant or has searched fewer than `signup_call_limit` times |
| Metering.UsageMeter.CheckAndRecordIngest | src/neuralgram/router/metering.py:171-199 | records one free marker exactly when a signup tenant is below its limit; otherwise records nothing |
| Metering.UsageMeter.Record | src/neuralgram/router/metering.py:227-256 | appends one event with the call's cost, which is the priced tokens to half a micro-dollar |
| Metering.PricesPerMillion | src/neuralgram/router/metering.py:28-55 | what a million tokens in and a million out cost with each model |
| Metering.FamilyWithinPrefix | src/neuralgram/router/metering.py:119-148 | the prefix the demo cap sums over covers the demo family |
| Metering.SpendBelowCapPlusOneCall | src/neuralgram/router/metering.py:137-158 | if every metered event of a tenant was recorded when the spend before it was under the cap, the spend stays below the cap plus the largest call |
| MeteredCalls.StepKeepsClear | src/neuralgram/router/metering.py:75-105 | what a call's check found of its own tenant still holds while it is between check and record, since no other call of the tenant records meanwhile |
| MeteredCalls.StepKeepsMetered | src/neuralgram/router/gateway.py:186-197 | every step of any call keeps the locks exclusive, the checks valid, and the caps and request limits respected |
| MeteredCalls.FailedCallsLeaveNoTrace | src/neuralgram/router/gateway.py:247-256 | a call that fails, times out or dies records nothing, and if it held its lock any call waiting for that lock can take it |
| MeteredCalls.OneCallPerTenant | src/neuralgram/router/metering.py:75-105 | as many family calls in flight as family tenants |
| MeteredCalls.StepKeepsFamilyBound | src/neuralgram/router/metering.py:119-148 | recorded family spend plus one largest call per family call in flight stays below the shared cap plus k largest calls |
| MeteredCalls.EveryRunRespectsTheCaps | src/neuralgram/router/gateway.py:186-197 | in every interleaving: a capped tenant spends below cap plus one call, a signup tenant's ingests and AI searches never pass the limit, and the demo family spends below cap plus k calls |
| MeteredRuns.EventsReflectCalls | src/neuralgram/router/gateway.py:186-256 | in every run the events say of the recorded calls what the checks go by: how many AI searches and ingests each tenant made, and what its calls, those of a prefix and those of a family cost |
| MeteredRuns.CallsRespectTheLimits | src/neuralgram/router/gateway.py:231-256 | counted over the calls of a run: a signup tenant records at most `signup_call_limit` AI searches and as many ingests, a capped tenant's calls cost less than the cap plus one, the family's less than its cap plus k |
| MeteredRuns.CheckDecides | src/neuralgram/router/metering.py:137-225 | at every point of every run a checked call goes ahead exactly when its tenant's recorded calls cost less than the cap, those of the shared prefix less than the family's, and, for an AI search or ingest of a signup tenant, fewer of that kind are recorded than the limit; no other call uses up a slot |
| CapsAreTight.CapBoundIsMet | src/neuralgram/router/metering.py:137-158 | for every cap and every largest call some run spends cap plus that call less one |
| CapsAreTight.FamilyBoundIsMet | src/neuralgram/router/metering.py:75-148 | for every number k of family tenants with locks of their own some run spends the shared cap plus k largest calls less one |
| Chunker.HardSplit | src/neuralgram/memory/chunker.py:43-56 | the loop ends and computes the cut-by-cut pieces |
| Chunker.CollectBlocks | src/neuralgram/memory/chunker.py:59-68 | the loop over paragraphs computes the blocks, blank paragraphs dropped and oversized ones cut |
| Chunker.MergeBlocks | src/neuralgram/memory/chunker.py:70-81 | the merging loop computes the greedy merge |
| Chunker.Chunk | src/neuralgram/memory/chunker.py:84-110 | one draft per chunk text, in order, addressed by tenant and text and with its token count |
| NormalText.NormalizedLines | src/neuralgram/memory/chunker.py:38-40 | the lines of a normalized body are the body's, right-stripped, less the blank ones before the first and after the last with ink, and less the first one's indent |
| NormalText.NormalizeFixesExactlyTheNormal | src/neuralgram/memory/chunker.py:38-40 | normalizing leaves exactly those texts alone that have no whitespace at a line end or at either end, and makes every text one of them |
| NormalText.ChunksKeepParagraphs | src/neuralgram/memory/chunker.py:59-81 | if no paragraph is over the budget, the chunks joined by blank lines are the paragraphs with ink joined by blank lines |
| NormalText.ChunksRejoin | src/neuralgram/memory/chunker.py:59-110 | and if none is blank, they are the normalized body |
| Text.SplitLeavesNone | src/neuralgram/memory/chunker.py:62 | no paragraph holds a blank line, and the paragraphs joined by blank lines are the text |
| ChunkerTheorems.CutIsLastBlank | src/neuralgram/memory/chunker.py:47-51 | a cut is at the last ' ' of the second half of the window, and at its end exactly when there is none |
| ChunkerTheorems.PiecesAreTrimmed | src/neuralgram/memory/chunker.py:52-53 | no piece of a cut text has whitespace where it was cut |
| Chunker.ZeroBudgetNeverEnds | src/neuralgram/memory/chunker.py:47-53 | with `max_tokens` 0 no number of turns uses up a paragraph with ink, and after the first none makes it shorter |
| ChunkerTheorems.NormalizeKeeps | src/neuralgram/memory/chunker.py:38-40 | normalizing changes neither the words nor the non-whitespace characters |
| ChunkerTheorems.PiecesBreakWords | src/neuralgram/memory/chunker.py:43-56 | hard splitting makes exactly one word more per cut between two non-whitespace characters, and changes no word when there is none |
| ChunkerTheorems.ChunksAreBounded | src/neuralgram/memory/chunker.py:59-110 | for `max_tokens` >= 1 every chunk is non-blank and within the token budget |
| ChunkerTheorems.ChunksKeepInk | src/neuralgram/memory/chunker.py:59-110 | the chunks, whitespace removed, are the body, whitespace removed |
| ChunkerTheorems.ChunksKeepWords | src/neuralgram/memory/chunker.py:38-110 | the words of all chunks in order are the body's words exactly when no cut breaks a word; each that does adds one |
| ChunkerTheorems.ShortRunsKeepWords | src/neuralgram/memory/chunker.py:38-110 | if every run other than ' ' of the normalized body is shorter than half the budget, all words come through whole |
| RawRuns.ShortRawRunsAreNotEnough | src/neuralgram/memory/chunker.py:38-56 | a body whose own runs are that short and that has a word broken all the same |
| GreedyMerge.GreedyIsFewest | src/neuralgram/memory/chunker.py:70-81 | no way of joining consecutive blocks with blank lines within the budget gives fewer chunks |
| GreedyMerge.ChunksAreFewest | src/neuralgram/memory/chunker.py:59-81 | so no grouping of a body's blocks within the token budget gives fewer chunks than the body has |
| GreedyMerge.GreedyIsGrouping | src/neuralgram/memory/chunker.py:70-81 | the greedy chunks are themselves such a joining of the non-empty blocks |
| Health.ProviderHealth.RecordSuccess | src/neuralgram/router/health.py:29-32 | counter and deadline go on saying what the provider's history says, with a success added to it |
| Health.ProviderHealth.RecordFailure | src/neuralgram/router/health.py:34-39 | the same, with a failure added |
| Health.ProviderHealth.IsAvailable | src/neuralgram/router/health.py:41-50 | false exactly when the failures since the last success or readmission reach the threshold and the clock is before the latest failure plus cooldown; a provider let in is not tripped afterwards, and one kept out still is |
| Health.ReadmitsIffLetIn | src/neuralgram/router/health.py:46-48 | a probe wipes the failures exactly when it lets a tripped provider in |
| Health.LatestFailureIsLast | src/neuralgram/router/health.py:34-39 | the deadline counts from the last failure there is |
| Health.StreakCountsFailures | src/neuralgram/router/health.py:29-50 | the streak is the number of failures after the last success or readmitting probe |
| Health.ProbesDoNotUnblock | src/neuralgram/router/health.py:41-50 | any number of probes before the deadline changes nothing |
| Health.ReadmissionIsClean | src/neuralgram/router/health.py:41-50 | after readmission it takes a full threshold of failures to trip again |
| Failover.ModelGateway.TryCandidate | src/neuralgram/router/gateway.py:215-226 | the retry loop ends at the first answer, at the first other exception, or when every attempt failed, and tells the breaker of each outcome in order |
| Failover.ModelGateway.CompleteWithFailover | src/neuralgram/router/gateway.py:204-229 | the candidates are visited in order as the breaker's history, the registry and the replies dictate; the outcome, the calls made and every provider's history are those of that trail |
| Failover.CallsAreBounded | src/neuralgram/router/gateway.py:211-226 | at most `retry_attempts` calls per candidate |
| Failover.TrippedAreNotCalled | src/neuralgram/router/gateway.py:211-213 | no candidate is called that was tripped when reached |
| Failover.FirstServingCandidateAnswers | src/neuralgram/router/gateway.py:211-226 | the answer comes from the first candidate that is up and answers within its attempts, at its first answer |
| Failover.FirstBreakingCandidateRaises | src/neuralgram/router/gateway.py:211-226 | any other exception comes from the first candidate that can raise it, unregistered or breaking off after failed attempts, and all before it were out |
| Failover.ProviderErrorIffAllOut | src/neuralgram/router/gateway.py:227-229 | ProviderError exactly when every candidate was tripped or failed all its attempts |
| Failover.OutcomeIsUnique | src/neuralgram/router/gateway.py:204-229 | history, registry and replies determine the whole run |
| FailoverHealth.AnsweringProviderIsHealthy | src/neuralgram/router/gateway.py:224-226 | after a call that was answered the provider that answered has no failure on its count and is not tripped |
| FailoverHealth.FailuresAreCounted | src/neuralgram/router/gateway.py:211-223 | a visit that used up its attempts adds exactly those to the provider's count, one that broke off exactly the failed ones before, from nothing if the visit let a tripped provider back in; the latest failure is the last attempt's; a skipped provider stays tripped |
| FailoverHealth.AfterVisit | src/neuralgram/router/gateway.py:211-226 | and no visit changes what the breaker knows of other providers |
| FailoverHealth.EveryCallIsHeard | src/neuralgram/router/gateway.py:216-226 | the breaker hears of every provider call once, except one that broke off |
| Vault.ContentStore.Persist | src/neuralgram/memory/store.py:45-74 | for every choice of faults: how the call ends, and that rows are all stored or none; it costs exactly those rows their file that it committed and then unlinked, and it does so iff a new row is committed, an exception follows and the first unlink works; in every outcome every row has its file iff every one had and the call did none of that; nothing but the drafts' files is touched |
| Vault.ContentStore.WriteFiles | src/neuralgram/memory/store.py:59-61 | the files of the new rows are written in order, up to the first write that fails, which may leave part of a file and whose fault ends the call; the list holds the paths of those written whole |
| Vault.ContentStore.CleanUp | src/neuralgram/memory/store.py:63-66 | a death removes no file; an exception removes those on the list before the first unlink that fails, and is raised again exactly when none fails |
| Vault.ContentStore.Unlink | src/neuralgram/memory/store.py:63-66 | the clean-up removes exactly the files of the list before the first unlink that fails |
| Vault.GoneIff | src/neuralgram/memory/store.py:56-66 | a call that commits removes a file exactly when it has a new row, an exception follows the commit and the first unlink works |
| Vault.Inserts | src/neuralgram/memory/store.py:76-98 | the insert keeps old rows, adds only rows of the drafts, and keeps hashes unique |
| Vault.LastDraftWins | src/neuralgram/memory/store.py:51 | of drafts with one id the last is kept, and only that |
| Vault.PersistIsIdempotent | src/neuralgram/memory/store.py:76-98 | storing the same drafts again inserts nothing |
| Vault.ContentAddressingNeverConflicts | src/neuralgram/memory/chunker.py:97-108 | with ids that are content hashes an insert never fails and adds exactly the ids not yet there |
| Vault.UnfiledAfter | src/neuralgram/memory/store.py:56-66 | however far the writing and the clean-up got, a call costs exactly those rows their file that it committed and then cleaned up after |
| Vault.VaultedAfter | src/neuralgram/memory/store.py:56-66 | wherever a call stops, every row has its file iff every row had one and the call did not commit or removed nothing |
| Vault.TornFileIff | src/neuralgram/memory/store.py:40-66 | a whole clean-up leaves a new or changed file exactly when a write stopped half-way and what it left differs from what was there; that path is never on the list |
| Vault.LostFilesStayLost | src/neuralgram/memory/store.py:45-98 | after a call that committed, storing its drafts again writes no file, so files lost after the commit stay lost |
| VaultFaults.CancelledAfterTheCommit | src/neuralgram/memory/store.py:56-66 | a cancellation while the session closes leaves a committed row with no file, also after the draft is stored again |
| VaultFaults.KilledAfterTheCommit | src/neuralgram/memory/store.py:56-66 | the death of the process at the same place leaves both the row and its file |
| VaultFaults.DiskFull | src/neuralgram/memory/store.py:39-66 | a write that fails half-way leaves its part of the file and no row |
| Erasure.ErasureService.EraseTenant | src/neuralgram/memory/erasure.py:49-102 | finished, no row, file or job naming the tenant is left, table by table, and the report accounts for what went; wherever it stops, the tables are as they were or lack exactly the tenant's rows and the jobs that name it or one of its chunks or entities, and only the tenant's files go; no row that stays loses its file |
| VaultRuns.BareAfter | src/neuralgram/memory/store.py:45-74 | one call of either service makes exactly the rows it loses bare of their files, and only erased rows stop being so |
| VaultRuns.BareIff | src/neuralgram/memory/store.py:45-74 | at every point of every serial run of `persist` and `erase` from an empty store, with faults anywhere: a row is without its file exactly when the call that committed it then unlinked that file and no erasure has removed the row since |
| VaultRuns.VaultedIff | src/neuralgram/memory/store.py:45-74 | so every row has its file exactly when no row still in the table was lost in that way |
| VaultRuns.AlwaysVaultedIff | src/neuralgram/memory/erasure.py:49-102 | every row has its file throughout a run exactly when no call of it commits a new row, then meets an exception, and unlinks |
| VaultRuns.DeathsLoseNothing | src/neuralgram/memory/store.py:45-74 | in a run with no exception after a commit, deaths anywhere, every row always has its file |
| Erasure.ErasureService.DeleteRows | src/neuralgram/memory/erasure.py:57-82 | the ordered deletes with their cascades leave exactly the rows and jobs that are not the tenant's, and count the others table by table |
| Erasure.ErasureService.RemoveTree | src/neuralgram/memory/erasure.py:84-88 | removes files of the tenant's directory only, and all of them if it finishes |
| Erasure.CascadesFindNothing | src/neuralgram/memory/erasure.py:68-74 | the deletes' foreign-key cascades reach no other tenant's rows |
| Erasure.JobsAgree | src/neuralgram/memory/erasure.py:75-80 | the job conditions pick exactly the jobs that name the tenant or one of its chunks or entities |
| Erasure.ErasedIsKept | src/neuralgram/memory/erasure.py:56-82 | erasing keeps content hashes unique and every remaining reference resolved |
| Erasure.ErasedKeepsFiles | src/neuralgram/memory/erasure.py:84-88 | however much of the directory is gone, the remaining rows without a file are those that had none before |
| Erasure.NothingRemains | src/neuralgram/memory/erasure.py:56-88 | a finished erasure leaves no row, job or file of the tenant |
| Erasure.OthersUntouched | src/neuralgram/memory/erasure.py:56-88 | nothing of any other tenant changes, finished or not |
| Erasure.RerunFinishes | src/neuralgram/memory/erasure.py:49-88 | an erasure that stopped after its commit ends, when run again, where it would have |
| Retrieval.HybridSearch | src/neuralgram/memory/retrieval.py:85-110 | distinct chunks, each the row first seen with its fused score, by descending score and ties by first sight; nothing left out ranks above anything returned |
| Retrieval.AnswerIsUnique | src/neuralgram/memory/retrieval.py:98-110 | that contract determines the result |
| Retrieval.SortOrders | src/neuralgram/memory/retrieval.py:109 | the stable descending sort orders the chunks by score, ties by first sight |
| Retrieval.FusedScore | src/neuralgram/memory/retrieval.py:102-108 | a chunk in both lists scores at least two last shares, any other at most one first share |
| Retrieval.FusedScoreIs | src/neuralgram/memory/retrieval.py:102-107 | a chunk at positions i and j of the two lists, counted from 0, scores 1/(rrf_k + i + 1) + 1/(rrf_k + j + 1), and one in a single list its one share |
| Retrieval.BothFirstIff | src/neuralgram/memory/retrieval.py:98-110 | chunks both searches found score strictly above chunks only one found, for all lists, exactly when `limit` <= `rrf_k` + 1 |
| Retrieval.BothComeFirst | src/neuralgram/memory/retrieval.py:98-110 | and then each is returned before any chunk only one found |
| Retrieval.KeywordGoesFirst | src/neuralgram/memory/retrieval.py:103-109 | of two chunks at the same place in their lists, each found by one search only, the keyword search's comes first |
| Reducers.DedupLines | src/neuralgram/compression/reducers.py:34-45 | the loop keeps blank lines and the first line of every key |
| Reducers.KeptAre | src/neuralgram/compression/reducers.py:34-45 | a line stays exactly when it is blank or no line before it has its key, and those that stay, stay in order |
| Reducers.KeptAllIffUnique | src/neuralgram/compression/reducers.py:34-45 | everything stays exactly when no non-blank line repeats |
| Reducers.KeptHasKeys | src/neuralgram/compression/reducers.py:34-45 | no key is lost |
| Reducers.DedupIsIdempotent | src/neuralgram/compression/reducers.py:34-45 | deduplicating again changes nothing |
| Folding.FoldKeepsWords | src/neuralgram/compression/reducers.py:48-53 | folding whitespace changes no word |
| Folding.FoldIsFolded | src/neuralgram/compression/reducers.py:48-53 | it leaves no tab, no two blanks in a row, no whitespace at line ends or at either end, and no gap of more than one line |
| Folding.FoldFixesExactlyTheFolded | src/neuralgram/compression/reducers.py:48-53 | and it leaves alone exactly the texts of that shape, so folding again changes nothing |
| Folding.FoldIsIdempotent | src/neuralgram/compression/reducers.py:48-53 | folding again changes nothing |
| FoldedLines.FoldKeepsParagraphs | src/neuralgram/compression/reducers.py:48-53 | the paragraphs of a folded text are those of the text, line for line, each line with its blanks collapsed and its end trimmed, less the indent of the first |
| Compression.TruncateToTokens | src/neuralgram/compression/reducers.py:63-76 | the longest run of leading clusters that fits, right-stripped, and within the budget; a text that fits is left as it is |
| Compression.Compress | src/neuralgram/compression/engine.py:76-107 | the rule's transforms in order; truncated exactly when that is over budget, and then to the longest run of leading clusters that fits, right-stripped; the result is within the budget |
| Compression.SparedAre | src/neuralgram/compression/reducers.py:56-60 | boilerplate removal keeps exactly the lines no pattern matches, each as often as it was there |
| Compression.SparedInOrder | src/neuralgram/compression/reducers.py:56-60 | and in order |
| Compression.ReducedWords | src/neuralgram/compression/engine.py:52-71 | the words of a reduced text are those of the lines kept |
| Compression.RuleFixesExactlyTheCompact | src/neuralgram/compression/engine.py:68-71 | the plain-text rule leaves alone exactly the texts that are folded and repeat no line |

## Left out

- Text of summaries, extraction verdicts, entities, scores and embeddings: model output is an arbitrary success or failure.
- Topic trees, the digest, hotness, routes, roles, keys, audit, alerts, metrics, tracing, migrations and the frontend: no part of the cores above.
- Seals of one scope running concurrently: `seal` selects without a row lock, so the tree theorems are about commits whose selection is still buffered; the worker model does allow overlapping seals and shows only that stages still advance.
- Forest.StepKeepsSound: assumes that a seal's chunks are still buffered and a fold's nodes still open at its commit, which is what serial seals of a scope give.
- SourceTree.SourceTree.Cascade: one clock reading serves all folds of a call, where the code reads the clock for each.
- Liveness: nothing says that an admitted chunk is ever sealed. A crash between the extraction commit and the enqueue leaves a chunk no later job picks up.
- How often a late write happens: `WorkersLate` says when one does harm; timely runs have none, and in all runs a late ack or fail counts as a release.
- WorkersBookkeeping.StrandedIffInterrupted: "leased" is while the lease would last; after that any worker can claim the job. A cancellation in the same turn of the loop as the commit comes before or after it.
- The model semaphore, the wake event, polling intervals and backoff sleeps: they delay steps and decide nothing.
- Topic-route and digest jobs beyond their place in the queue: they are tasks like any other.
- Cache hits in `complete`: they call no provider and meter nothing.
- MeteredCalls.EveryRunRespectsTheCaps: caps, demo settings and the set of signup tenants stay fixed over a run, the demo prefix holds no LIKE wildcard, and spend between check and record is bounded per call rather than per token.
- Overflow of the `cost_usd` column, and caps with more than six decimals.
- Failover.ModelGateway.CompleteWithFailover: other requests that touch the shared breaker during one call are not interleaved with it.
- Vault.ContentStore.Persist: calls run one at a time; overlapping calls for one chunk can delete each other's file. A commit that takes effect and raises all the same is the exception after the commit. Missing directories are made by the write.
- Erasure.ErasureService.EraseTenant: runs alone; jobs accepted or rows added while it runs are not modelled.
- Columns of scores, links, entities, summaries and users other than their keys and tenant.
- Retrieval.HybridSearch: scores are exact rationals, where the code adds floats, so ties there are decided by rounding; `limit` and `rrf_k` are not negative.
- HTML conversion, the classification of payloads and the boilerplate patterns: patterns are an arbitrary predicate on lines.
- Compression.TruncateToTokens: grapheme clusters are any division of the text; nothing is said of cluster boundaries after the right-strip.
- Idempotence of the whole compression: folding can make two lines equal after repeats were dropped.
