# Call processing: a verified model

This project models the call-processing protocol of the backend and proves what
it keeps. A sales call is placed with a telephony provider; provider events
(webhooks and polling) are logged and projected onto the call; once a transcript
is stored, three stages claimed in the database (extraction, risk,
recommendation) and a memory job process the call. Everything runs concurrently,
with crashes, rollbacks and messages that may be delivered any number of times.

`Model.dfy` holds the rows, messages and workers, `Protocol.dfy` the transition
system: each step is one atomic effect (a Redis command, a transaction that
commits or aborts, a sent message, a crash, time passing). A `Run` is any
interleaving from the empty system. `Ingestion.dfy` and `Stages.dfy` give the
functions those transactions compute; `Frames.dfy` says what each group of steps
leaves alone. One file per property follows: `Finalisation`, `Provenance`,
`MutualExclusion`, `DealHistory`, `CoverageHistory`, `Replay`, `Idempotency`,
`MemoryBatch`, `Linkage`, `Retention` with `RedactionLasts`. Each states an
invariant, shows that every step keeps it, and derives theorems about all runs.
`Witnesses` gives runs that exist: ones that complete a call within the timing
hypotheses, ones in which two workers hold a call when the window is too long,
and ones that undo a redaction.

The code that works by updating state is also given in its own form: the
`*Service` modules, `Throttle.Limiter`, `Ingestion.Utterances`,
`Ingestion.SessionRow` and `Scorer.Tally` are classes and methods with the
source's branches and loops, proved against the same functions the protocol
uses. `RiskService.StepsAreTheTransaction` and the `Steps...` lemmas of
`IngestionService` say that protocol steps taken in a row are those transactions
and deliveries, and `ExtractionService.StepsAreTheRun` does so for extraction.
`Throttle`, `Transcripts` with `Labels`, `Sentences`, and `Scoring` with `Scorer`
are the timed call throttle and the three algorithms.

Contracts that say which call, which extraction entry, which status or which word
decides something are stated over those columns, entries and literals themselves.

`dafny verify dfyconfig.toml` checks the whole project.

## Assumptions

- Provider call ids are unique (the index on them is not).
- The user refund (GET, DECR, DELETE) is one atomic step; INCR and EXPIRE already are.
- "Latest snapshot" is chosen by `created_at`; the model uses commit order under the deal lock.
- A transaction that reports an error has not committed.
- `func.now()` is the start of the writing transaction, so `updated_at` may lie
  before the commit. `MutualExclusion` takes as `lag` the longest such delay of a
  claim or a delivery transaction; later transactions of a run may last any time.
- The application's and the database's clocks agree.
- Transcripts are ASCII.
- Deals and stakeholders are not deleted, and a stakeholder stays with its deal.

## What the proofs found

- Counted by the instants at which the provider accepted, the user quota holds
  for intervals of length `window - latency + 1` and for no longer one; by the
  instants of reservation it holds for the whole window. The cooldown likewise
  separates acceptances by `cooldown - latency + 1` and no more.
- When claims are stamped up to `lag` before their commit, the stale check protects
  a live risk or recommendation run for sixty seconds minus `lag` and for no
  longer (`Witnesses.ExclusionIff`).
- The comment in `process_bolna_event` promises that a failed delivery releases
  its key. An exception outside the guarded transaction does not: it comes from
  the lookup, or from a status word that cannot be a dictionary key. The key then
  stays until it expires, and a redelivery is taken for a duplicate
  (`IngestionService.DeliverOddStatusTwice`). A delivery that ended without an
  event keeps its key if and only if it stopped in this way or by a crash
  (`Idempotency.KeyStuckIffStopped`).
- The retry branches for a missing extraction or missing context cannot be
  reached (`Provenance.MissingArtifactBranchesDead`).
- After the provider words `no-answer`, `stopped` and `error` the poller does not
  stop by itself (`Polling.StopWordsEndTheCall`).
- Redaction is not permanent. It lasts if and only if no later step is one of four:
  an event of the call that stores turns or brings a recording, or the commit of
  an extraction, of advice or of documents by a run that was under way
  (`RedactionLasts.RedactionLastsIff`; `Witnesses.RedactionCanBeUndone` has a run for each).

## Model

| member | source | states |
|---|---|---|
| `MutualExclusion.PipelineExclusive` | backend/app/services/risk/service.py:67-104 | in every state of a run whose live risk and recommendation runs finish within a window of at most sixty seconds minus the lag of claims, with crashes, duplicates and takeovers, at most one live worker holds an unredacted call across the three stages, and the call's status is that worker's running state |
| `MutualExclusion.HeldCallUnclaimable` | backend/app/services/recommendation/service.py:132-172 | in such a run, while a worker holds an unredacted call no stage can claim it, stale takeover included |
| `MutualExclusion.RunMutex` | backend/app/services/extraction/service.py:140-169 | the inductive invariant behind exclusion: one holder per unredacted call, whose claim is not older than `updated_at` by more than the lag |
| `Witnesses.ExclusionIff` | backend/app/services/risk/service.py:40-53 | for claims stamped at most `lag` early, every timely run is exclusive if and only if its window is at most sixty seconds minus the lag; the failing half is a run from the empty system |
| `Finalisation.TranscriptOnce` | backend/app/services/transcripts/service.py:96-116 | an unredacted call's transcript is stored by at most one event, is what that event carried, and never changes |
| `Finalisation.StatusMovesOnce` | backend/app/services/bolna/ingestion.py:205-223 | ingestion changes the processing status of such a call at most once, from pending to transcript_finalized |
| `Finalisation.ExtractSentOnce` | backend/app/services/bolna/ingestion.py:311-313 | at most one extraction message is ever sent for such a call, and only after its transcript is stored |
| `Finalisation.RunFinal` | backend/app/models/transcript_utterance.py:29-33 | the inductive invariant behind once-only finalisation, over all interleavings of deliveries, failed commits and crashes |
| `Provenance.MessagesBacked` | backend/app/workers/tasks.py:116-204 | every message ever sent, every worker and every status has its artifacts committed: risk needs an extraction of the call, recommendation a risk snapshot carrying the call's id, memory a recommendation |
| `Provenance.CompletedCallHasArtifacts` | backend/app/services/recommendation/service.py:200-226 | a call with completed recommendations has its own extraction and its own risk snapshot, although the stage looks risk up by deal |
| `Provenance.MissingArtifactBranchesDead` | backend/app/services/risk/service.py:122-149 | the branches for a missing extraction or missing context are never enabled |
| `DealHistory.DealShowsHistory` | backend/app/services/risk/service.py:183-333 | a deal's columns are those of its last committed snapshots, score bounded and recomputable from its factors, level belonging to it, first score plus reported changes equal to the current score |
| `DealHistory.OneSnapshotPerCommit` | backend/app/services/risk/service.py:106-120 | however the runs of a deal interleave, it has exactly one risk and one deal snapshot per risk commit |
| `DealHistory.StepAppends` | backend/app/services/risk/service.py:299-343 | a risk commit appends one snapshot of each kind to its deal; every other step leaves row and histories alone |
| `DealHistory.DeltasTelescope` | backend/app/services/risk/service.py:191-216 | along any chain of snapshots the first score plus the signed changes is the last score |
| `DealHistory.OnePending` | backend/app/services/risk/service.py:106-113 | two computed but uncommitted results of one deal cannot coexist |
| `CoverageHistory.CoverageMeaning` | backend/app/services/risk/service.py:284-297 | comparing counts decides exactly whether everybody, or nobody, of the team was reached |
| `CoverageHistory.CoverageLasts` | backend/app/services/risk/service.py:284-308 | once computed, coverage is never none; no stakeholder disappears; full stays full at every later commit that reads the same team |
| `CoverageHistory.CoverageExactAtCommit` | backend/app/services/risk/service.py:218-236 | at a risk commit the coverage is full if and only if every stakeholder read is contacted in the state it leaves |
| `CoverageHistory.ContactedStays` | backend/app/services/risk/service.py:218-236 | a contacted stakeholder is contacted in every later state |
| `Replay.ProjectionIsReplay` | backend/app/services/bolna/ingestion.py:176-223 | a placed call's status, start, end, duration and unredacted recording are those of the last logged event that said so, from the queued row on |
| `Replay.EventsFollowPlacement` | backend/app/services/call/service.py:309-336 | no event is logged before the provider id is stored, and every event carries that id as its execution id or, without one, as its id |
| `Replay.EndedIffTerminalLogged` | backend/app/services/bolna/ingestion.py:193-197 | the end is set exactly when a terminal event is logged, the start exactly when a started event is |
| `Replay.LastSaidIsLast` | backend/app/services/bolna/ingestion.py:187-203 | the replayed value is that of the latest event with something to say, and absent only when none had |
| `Replay.UnplacedStatus` | backend/app/services/call/service.py:287-336 | in every run a call without a provider id is failed if and only if the provider refused it, and initiating otherwise |
| `Idempotency.OneEventPerLifetime` | backend/app/services/bolna/ingestion.py:116-127 | two logged events with the same key were logged by deliveries that set it a whole lifetime apart |
| `Idempotency.SetKeyHasHolder` | backend/app/services/bolna/ingestion.py:240-261 | a set key belongs to a delivery of that key that committed its event, is in flight, or stopped early |
| `Idempotency.DuplicateIgnored` | backend/app/services/bolna/ingestion.py:243-248 | while a delivery is in flight another of the same key changes nothing |
| `Idempotency.KeyStuckIffStopped` | backend/app/services/bolna/ingestion.py:240-299 | within its lifetime the key of a delivery that ended without an event is still set by it if and only if it stopped by an exception outside the guarded transaction or by a crash |
| `Idempotency.FailedDeliveryFreesKey` | backend/app/services/bolna/ingestion.py:252-261 | a delivery that found no call or whose transaction failed, and was not stopped, ends with no key entry of its own |
| `Idempotency.ReleaseHitsOwnKey` | backend/app/services/bolna/ingestion.py:297-299 | a deletion only removes the lifetime its own delivery began |
| `Idempotency.RunLog` | backend/app/services/bolna/ingestion.py:145-173 | every event was logged by one delivery, which logs no other and is marked exactly when it did |
| `MemoryBatch.DocumentsOfOneRun` | backend/app/services/memory/service.py:270-278 | the documents of a call are none, or exactly the whole batch of the one run that committed one |
| `MemoryBatch.BatchStays` | backend/app/models/memory_document.py:36-40 | a stored batch is never extended or replaced |
| `Linkage.SnapshotsLinked` | backend/app/services/extraction/service.py:172-217 | for an unredacted call each snapshot has one anchor per evidence item in order, pointing at the stored utterance with its number if and only if there is one |
| `Linkage.NoOrphanAnchors` | backend/app/services/extraction/service.py:313-345 | no anchor exists without its snapshot, failed persists included |
| `Retention.SweepReaches` | backend/app/services/call/service.py:467-493 | after a sweep no unredacted call that ended before the cutoff keeps a transcript, and calls keeping one are untouched |
| `Retention.SweepInAnyOrder` | backend/app/services/call/service.py:389-455 | a sweep equals redacting its calls one at a time in any order |
| `Retention.SweepTwice` | backend/app/services/call/service.py:474-485 | a second sweep with the same or an earlier cutoff changes nothing |
| `Retention.SweepTouchesExpiredOnly` | backend/app/services/call/service.py:475-481 | a call that has not ended, ended at the cutoff or later, or is redacted keeps its whole file; every other call ends with utterances, anchors, extractions, documents, drafts, recommendations and recording scrubbed, its event log, other columns and the number and kind of its rows kept |
| `Retention.SweepStepExact` | backend/app/services/call/service.py:467-493 | the same for a sweep step of any run |
| `Retention.RedactUnion` | backend/app/services/call/service.py:389-455 | redacting one set after another is redacting their union |
| `RedactionLasts.RedactionLastsIff` | backend/app/services/call/service.py:389-455 | after a redaction of a call, by itself or in a sweep, it stays scrubbed if and only if no later step stores its turns or a recording, or commits an extraction, advice or documents for it |
| `RedactionLasts.ScrubbedLastsIff` | backend/app/services/call/service.py:389-455 | the same from any scrubbed state of a run on, by induction over the run |
| `RedactionLasts.StepExact` | backend/app/services/bolna/ingestion.py:201-216 | the same for one step of any kind |
| `Witnesses.RedactionCanBeUndone` | backend/app/services/call/service.py:397-401 | for each route (transcript, recording, extraction, advice, documents) a run in which a scrubbed call discloses data again |
| `Witnesses.CallCanComplete` | backend/app/workers/tasks.py:116-229 | from any state a call with a stored transcript, its message sent, a free deal lock and no documents can be taken through all four jobs by fresh workers, whatever schema-conforming extraction and non-empty advice the model returns |
| `Witnesses.SomeRunCompletes` | backend/app/workers/tasks.py:116-229 | from the empty system some run completes a call with its documents; it meets the timing hypotheses of exclusion and of the key theorems |
| `Witnesses.LongRunCompletes` | backend/app/services/recommendation/service.py:174-324 | a timely run may wait for the model any time below sixty seconds inside its last transaction and completes the call |
| `Witnesses.DueRunCompletes` | backend/app/services/recommendation/service.py:132-172 | a call left by a finished stage, by a retryable failure, or by a run of a minute ago can be taken over by the next delivery of the stage's message and brought to the end |
| `Witnesses.FailedRunCanRetry` | backend/app/services/risk/service.py:346-364 | in any run, after a failed risk or recommendation run the call is failed_retryable, its message is still there, and delivered again takes the call to the end |
| `Schema.ConformingIsReadable` | backend/app/services/extraction/schema.py:16-126 | every extraction the schema accepts can be read by the risk run |
| `Frames.RunWellFormed` | backend/app/services/risk/service.py:106-113 | in every reachable state rows reference existing rows, and a deal's lock is held exactly by the risk worker between locking it and ending its transaction |
| `IngestionService.Intake.ProcessEvent` | backend/app/services/bolna/ingestion.py:226-322 | which outcome occurs when, and for each the new keys, rows and messages: the call whose provider id is the payload's execution id (or, without one, its id) is the one processed; when it raises the key stays set exactly when the lookup or the status word raised |
| `IngestionService.Intake.WriteEvent` | backend/app/services/bolna/ingestion.py:279-296 | one transaction logs the event, updates the columns one by one and stores the transcript unless one is stored; an unknown status changes no column |
| `IngestionService.Intake.CheckKey` | backend/app/services/bolna/ingestion.py:116-127 | sets the key for its lifetime unless it is live |
| `IngestionService.Intake.ResolveSession` | backend/app/services/bolna/ingestion.py:130-142 | finds a call with the execution id, or there is none |
| `IngestionService.StepsAreTheDelivery` | backend/app/services/bolna/ingestion.py:226-322 | the protocol's steps of a delivery that finds its call and commits leave what the entry point leaves |
| `IngestionService.StepsWithoutSession` | backend/app/services/bolna/ingestion.py:249-261 | the same for a delivery that finds no call |
| `IngestionService.StepsOfFailure` | backend/app/services/bolna/ingestion.py:279-299 | the same for a failed transaction |
| `IngestionService.StepsOfRaise` | backend/app/services/bolna/ingestion.py:249-269 | the same for an exception of the lookup or of the status word, which is the only way on for such a status |
| `IngestionService.DeliverOddStatusTwice` | backend/app/services/bolna/ingestion.py:104-113 | a payload whose status is an object raises, and its second delivery is taken for a duplicate |
| `Ingestion.SessionRow.UpdateProjection` | backend/app/services/bolna/ingestion.py:176-223 | each column after an event of each type, and extraction is due exactly when a terminal event's transcript parses to turns and none were stored |
| `Ingestion.Utterances.Persist` | backend/app/services/transcripts/service.py:76-123 | stores all parsed turns of a call with none stored, otherwise leaves the table as it was |
| `Ingestion.Utterances.InsertAll` | backend/app/services/transcripts/service.py:98-110 | the inserts number the turns from 0 and clash exactly when one of these rows exists |
| `Ingestion.Utterances.Read` | backend/app/services/extraction/service.py:242-249 | reading by sequence number gives back the stored turns |
| `ProviderWords.KnownWordNamesStatus` | backend/app/services/bolna/ingestion.py:39-64 | a known word leads to the status of the same name, hyphens aside; `stopped` and `error` lead to failed |
| `ProviderWords.WordKnownIff` | backend/app/services/bolna/ingestion.py:104-113 | a word is known if and only if it names a status other than the initial one or is one of the two synonyms |
| `ProviderWords.ExplicitIdDecides` | backend/app/services/bolna/ingestion.py:71-90 | payloads with an explicit id share a key exactly when they share that id, whatever their status |
| `ProviderWords.KeyText` | backend/app/services/bolna/ingestion.py:71-90 | the key text over the payload's entries: event id, else id, else execution id, status and digest |
| `ProviderWords.DigestDecides` | backend/app/services/bolna/ingestion.py:82-90 | without an explicit id a shared key means a shared digest, and for one execution id and status the digest decides |
| `Polling.PollExecution` | backend/app/workers/tasks.py:34-99 | polls nothing without a provider id; otherwise processes the payloads of the first attempts up to a status that stops the worker, a call found ended, an exception of the fetch, of reading the call or of the processing, or the limit, whichever comes first |
| `Polling.StopWordsEndTheCall` | backend/app/workers/tasks.py:91-99 | stop words end the call; exactly three provider words end it without stopping the poller |
| `RiskService.ClaimRisk` | backend/app/services/risk/service.py:67-104 | claims exactly from extraction_completed, from failed_retryable, or when snapshots_updating for a minute, and writes status and time |
| `RiskService.LoadStakeholders` | backend/app/services/risk/service.py:153-166 | exactly the deal's stakeholders, each once |
| `RiskService.AnyBuyer` | backend/app/services/risk/service.py:165-172 | true exactly when a stakeholder or the extraction names an economic buyer |
| `RiskService.Summarise` | backend/app/services/risk/service.py:191-216 | the signed change against the previous score and the factors not in its list |
| `RiskService.StakeholderUpdate` | backend/app/services/risk/service.py:218-282 | sets the contact time, the role only when the entry is a non-blank text other than unknown, the confidence only with the role, the sentiment when it is not empty, and appends the stakeholder snapshot, entry by entry |
| `RiskService.CountCoverage` | backend/app/services/risk/service.py:284-297 | full exactly when there is a team and all of it was contacted, none exactly when nobody was |
| `RiskService.ComputeRisk` | backend/app/services/risk/service.py:153-320 | the imperative run computes the protocol's snapshots and the stakeholder's new row |
| `RiskService.RiskMeans` | backend/app/services/risk/service.py:153-343 | what a risk run reports, over the extraction's entries and the deal's team: score, factors, level band, summary, signals, and the stakeholder's update |
| `RiskService.UpdateRisk` | backend/app/services/risk/service.py:106-364 | the whole second transaction on the tables; a missing extraction, one whose sections are no objects, or any exception leaves only the retryable status |
| `RiskService.StepsAreTheTransaction` | backend/app/services/risk/service.py:106-343 | locking, computing and committing in the protocol leave the tables of that transaction |
| `ExtractionService.ClaimExtraction` | backend/app/services/extraction/service.py:140-169 | claims exactly from transcript_finalized and failed_retryable |
| `ExtractionService.CallWithRepair` | backend/app/services/extraction/service.py:92-137 | repeats only after invalid output, at most the configured attempts, and returns the first decisive answer |
| `ExtractionService.PersistExtraction` | backend/app/services/extraction/service.py:172-217 | adds the snapshot with one anchor per evidence item, or nothing when an utterance is gone |
| `ExtractionService.FinishExtraction` | backend/app/services/extraction/service.py:241-345 | no utterances, invalid output, a missing utterance or a failed write end retryable, any other exception of the model call ends terminal, else completed; snapshot and anchors are stored exactly when completed |
| `ExtractionService.StepsAreTheRun` | backend/app/services/extraction/service.py:241-345 | the protocol's ending step of an extraction run leaves those rows and that status |
| `RecommendationService.ClaimRecommendation` | backend/app/services/recommendation/service.py:132-172 | claims exactly from risk_running, from failed_retryable, or when recommendation_running for a minute |
| `RecommendationService.PersistAdvice` | backend/app/services/recommendation/service.py:175-324 | stores one row per action and one per draft and completes, or marks the call retryable and stores nothing when context is missing or anything fails |
| `RecommendationService.AddRecommendations` | backend/app/services/recommendation/service.py:268-299 | one row per action with its own action, reason and talk track |
| `RecommendationService.AddDrafts` | backend/app/services/recommendation/service.py:301-313 | one row per draft with its own kind and body, an empty subject stored as none |
| `MemoryService.BuildDocuments` | backend/app/services/memory/service.py:38-132 | each due document type once in the fixed order, due over the extraction's own entries, linked to deal, call and (where the source does) stakeholder |
| `MemoryService.CommitBatch` | backend/app/services/memory/service.py:250-278 | inserts the whole batch, or nothing when any type exists |
| `MemoryService.GenerateDocuments` | backend/app/services/memory/service.py:169-288 | a run alone stores exactly the documents for the latest extraction and risk, or nothing when some exist or no extraction does |
| `RetentionService.RedactBatch` | backend/app/services/call/service.py:389-455 | the seven bulk updates together redact each listed call and nothing else |
| `RetentionService.ApplyRetention` | backend/app/services/call/service.py:467-493 | scrubs each unredacted call that ended before the cutoff, leaves every other call's file alone, and returns how many it scrubbed |
| `Throttle.UserQuota` | backend/app/services/call/service.py:58-78 | no interval of one window holds the reservations of more than the maximum of accepted placements of a user; by acceptance instants the same for intervals shorter by the latency |
| `Throttle.AcceptanceBoundExact` | backend/app/services/call/service.py:280-285 | by acceptance instants an interval length is safe if and only if it leaves room for the latency |
| `Throttle.RefundHitsOwnLifetime` | backend/app/services/call/service.py:100-112 | at every refund the live counter is of the attempt's own lifetime, is exact, and counts it |
| `Throttle.CooldownKept` | backend/app/services/call/service.py:81-97 | accepted placements to one stakeholder took its key at least a cooldown apart, hence were accepted more than cooldown minus latency apart |
| `Throttle.CooldownBoundExact` | backend/app/services/call/service.py:81-97 | between acceptances a distance is guaranteed if and only if it is at most cooldown minus latency plus one |
| `Throttle.RefundHitsOwnKey` | backend/app/services/call/service.py:115-120 | at every refund of a cooldown key the key is live and is the one the attempt itself set |
| `Throttle.Limiter.AcquireUserSlot` | backend/app/services/call/service.py:58-78 | counts the attempt, renews the expiry and admits it up to the maximum |
| `Throttle.Limiter.AcquireStakeholderSlot` | backend/app/services/call/service.py:81-97 | takes the key exactly when it is not live |
| `Throttle.Limiter.ReleaseUserSlot` | backend/app/services/call/service.py:100-112 | takes one back and deletes a counter that reaches zero |
| `Throttle.Limiter.ReleaseStakeholderSlot` | backend/app/services/call/service.py:115-120 | deletes the key |
| `Throttle.Limiter.InitiateCall` | backend/app/services/call/service.py:277-351 | an undisturbed attempt leaves count and key taken when placed and as they were when cooling down or refused |
| `Transcripts.Vocabulary.ParseTurns` | backend/app/services/transcripts/service.py:31-63 | the loop with its two fallbacks computes the parse |
| `Transcripts.Vocabulary.ParseEmptyIffBlank` | backend/app/services/transcripts/service.py:37-63 | the result is empty exactly for a blank text |
| `Transcripts.Vocabulary.ParsedTurns` | backend/app/services/transcripts/service.py:31-73 | turns are non-empty stripped texts by agent or prospect (or one unknown turn), disjoint segments of the input in order |
| `Transcripts.Vocabulary.PrintThenParse` | backend/app/services/transcripts/service.py:25-63 | every list of label-free agent and prospect turns survives print then parse |
| `Transcripts.Vocabulary.ParsePrintParse` | backend/app/services/transcripts/service.py:25-63 | parsing the printed parse of a labelled transcript gives the same turns |
| `Transcripts.Vocabulary.LabelledIffCanonical` | backend/app/services/transcripts/service.py:31-73 | the labelled results are exactly the non-empty lists of canonical turns |
| `Transcripts.Vocabulary.LabelUnique` | backend/app/services/transcripts/service.py:25-28 | the order of the alternatives does not matter: any label that matches is the match |
| `Transcripts.SpeakersValid` | backend/app/services/transcripts/service.py:66-73 | the eight labels satisfy what the parser's properties need |
| `Labels.LabelledTurn` | backend/app/services/transcripts/service.py:25-73 | agent, ai, assistant and bot, in any case and with any white space around the colon, label an agent's turn; user, prospect, customer and human a prospect's |
| `Labels.OtherWordNoLabel` | backend/app/services/transcripts/service.py:25-28 | at any other word of letters no label matches |
| `Labels.OtherWordIsText` | backend/app/services/transcripts/service.py:31-63 | a line that begins with such a word and a colon is one turn of an unknown speaker |
| `Labels.LowerIs` | backend/app/services/transcripts/service.py:25-28 | case folding on ASCII: each capital letter to its small letter, anything else to itself |
| `Text.SpaceIs` | backend/app/services/transcripts/service.py:31-63 | the ten ASCII characters that count as white space |
| `Sentences.CapIsSentencePrefix` | backend/app/services/call/service.py:139-155 | a capped text is a prefix of the normalised text with at most n sentences, and all of it exactly when it has no more |
| `Sentences.CapCap` | backend/app/services/call/service.py:139-155 | capping twice is capping at the smaller bound |
| `Sentences.CapIsTake` | backend/app/services/call/service.py:148-155 | splitting by the expression, stripping and joining is taking whole sentences of words |
| `Sentences.CapKeepsSomething` | backend/app/services/call/service.py:153-155 | a text that is not blank keeps at least a sentence |
| `Sentences.FirstSentence` | backend/app/services/call/service.py:139-155 | the first sentence reaches to the first word whose last character is a full stop, an exclamation or a question mark, and is the whole text when there is none |
| `Sentences.WordsOfJoin` | backend/app/services/call/service.py:134-136 | joining words and splitting gives them back |
| `Scorer.ScoreExtraction` | backend/app/services/risk/scoring.py:23-115 | each factor is listed, once and in rule order, if and only if the extraction's own entry (or the stakeholder count, or the caller's buyer answer) says so, entry by entry for all eleven rules; the score is the capped sum of the factors' points |
| `Scorer.Get` | backend/app/services/risk/scoring.py:13-20 | the loop over keys is the nested lookup, null when it leaves objects |
| `Scorer.ReadFacts` | backend/app/services/risk/scoring.py:43-113 | each fact is read from its own entry of an arbitrary JSON value |
| `Scorer.ScoreBounded` | backend/app/services/risk/scoring.py:113-115 | the score is in 0..100 and raw points are at most 121 |
| `Scorer.CapIsReached` | backend/app/services/risk/scoring.py:113-115 | some input reaches 121 raw points, so the cap matters |
| `Scorer.ScoreExplained` | backend/app/services/risk/scoring.py:31-115 | the score is recomputable from the factor texts alone |
| `Scorer.ZeroIffNoFactors` | backend/app/services/risk/scoring.py:31-115 | the score is zero exactly when no factor is listed |
| `Scorer.ScoreMonotone` | backend/app/services/risk/scoring.py:23-126 | making any entry of an extraction worse, or the team smaller, never lowers score or level |

## Left out

- Terminal call status, permanence of redaction and at most one snapshot per call: the code does not guarantee them.
- Effects of other processes between two polls: `PollExecution` takes what it finds in the database as given.
- Liveness: crashes between commit and enqueue can strand a call; safety is proved, and that completion is possible (`Witnesses`).
- The polling and delivery loops inside the protocol: a delivery may arrive at any time with any payload, which covers them.
- The non-atomic user refund: GET, DECR and DELETE are one step here, as the quota needs.
- `_latest_extraction_summary` and the prompt data it builds: an exception there is the throttle's lost attempt.
- Stance of stakeholder snapshots, tone of drafts, confidence of recommendations and extractions, and model and prompt versions: constants or copied values that nothing modelled reads.
- Prompts, fallback wording, embeddings and the text of documents: only document types, presence, identity and redaction are kept.
- The event log, which redaction does not touch, and copies of the summary in deal and stakeholder snapshots.
- `_extract_open_questions`, and `_cap_sentences` with a negative maximum, which no caller passes.
- The digest function: a payload carries its digest, and a status that is no text is printed as `unknown` in a key.
- Unicode case folding and whitespace: the parser is modelled on ASCII.
- Realtime notifications, payload capture, authentication, CRUD services, schemas and the frontend.
