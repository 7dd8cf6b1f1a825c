# Call quality assurance: a verified model

This project models the two cores of the call quality system in `qc/` and proves what they are for.

**The recoverable batch protocol.** A batch is created together with outbox events; publishers move events to a
stream; workers claim items by compare-and-set, run a checkpointed pipeline of four stages, finalise once and then
acknowledge. `BatchStore` has the store and its transactions, `BatchLaws` what each transaction keeps, `Protocol` the
labelled transition system of publishers, stream and workers, `BatchSafety` and `BatchGuarantees` the invariant and
the theorems over every run, `Workers` the imperative message handler and publisher loop. `Stages` and `StageStore`
hold the checkpoint rows in both databases; `Pipeline`, `Recovery`, `Resumption`, `BlankReasons` and `Executor` the
pipeline of one file, as a transition system with a crash between any two writes and as the imperative code whose
writes are its steps.

**Report trust.** `Extractor`, `Analyzer`, `Gate`, `AgentLoop` and `Service` follow a report from extracted events to
COMPLETED, PARTIAL or FAILED; `Rules` and `Reports` hold violations, rules, merging, score and support. `Verdicts` and
`Findings` say what the analyzer's verdicts and the gate's findings mean, in terms of the call and the report alone.
Planner, evaluator, search, audit and run store are arbitrary. `ChunkIds`, `Knowledge`, `KnowledgeSearch` and
`IndexedCalls` add the knowledge index behind the search, `IndexLaws` and `SearchLaws` what it holds and finds, and
`RetentionExample` the call it can lead astray.

**Smaller pieces.** `Review` (concurrent review submissions), `RankFusion` (reciprocal-rank fusion), `EmotionClient`
(the line protocol with the emotion child process), `Throttle` (the LLM rate limit), `Retry` (back-off).

Code that changes state in the source is a class with methods here, or a method with a loop; each is proved against
functions, and the theorems are about those functions.

## How the source is read

- Each database transaction, artifact write and Redis call is one step. Transactions are serialised.
- SHA-256 is an injective digest; JSON and Pydantic encoding lose nothing. Instants are whole seconds in UTC.
- Stage functions, runners and models are relations or functions given as parameters.
- Stage-level results (freshness, resume equivalence) are for one executor of a file at a time, and artifacts are lost
  or altered only while nobody runs. File-level results (claim, finalise, acknowledge) hold with zombie executors too.
- Score arithmetic, penalties and ranks are exact; relevance scores and times are reals.

## Where the obvious claim fails

- Total attempts of a stage are not bounded by the retry budget: only FAILED rows are compared with it, so a row left
  RUNNING by a crash, PENDING by invalidation, or DONE but not loadable (an upgraded producer, a lost artifact) is run
  past it. `Executor.BudgetHoldsExactly` says exactly when a call stays within the budget and when it exceeds a spent
  one; `Resumption.CrashesOutrunTheBudget` piles up any number of attempts.
- An exhausted failure is not matched against the producer version, so it outlives an upgrade
  (`Resumption.FailureOutlives`). DONE rows are matched.
- A failure with a blank code or message reads differently after a resume, because a recorded blank is replaced
  (`BlankReasons.ResumeEqualsExactly` gives the exact condition; a blank version upstream prevents it, because such a
  producer runs again on every pass and its re-run clears the failed row).
- Merging violations is not always idempotent when known and unknown event ids mix
  (`Rules.DedupNotIdempotentWhenMixed`; exactly when, `Rules.DedupIdempotentExactly`).
- The analyzer keeps one hit per document id, and two documents of one id but different lengths can both be returned:
  the parts the later one is too short for still resolve to the earlier one. So a clean call can fail the gate
  (`RetentionExample.CleanAnalysisMayFail`, with two entries of one rule id; `Analyzer.AnalyzerGateAgreement` has the
  exact condition on the call, `Knowledge.MetadataFixedExactly` the one on the index). With distinct ids, as shipped,
  it cannot (`IndexedCalls.CleanCallsPassOverDistinctIds`), even where rules list several event types.
- The metadata filter of a search is not hard: eligible rows are resolved by chunk id afterwards, where the last
  document wins (`KnowledgeSearch.FilterIsHardExactly` says exactly when it is). In particular a rule that lists several
  event types is only ever returned under the last one, and its text supports no other
  (`Knowledge.RuleBacksExactlyItsLastType`, `IndexedCalls.OwnTextSupportsTheLastType`). The Postgres knowledge store
  refuses repeated chunk ids (`qc/orm_models.py:513`); the file store does not.
- Stored and recomputed batch status differ when some items are final, some wait and none is under way
  (`BatchGuarantees.DoneAndWaitingDiffer`; exactly when, `BatchLaws.StoredMeetsDerived`).
- SQLite accepts a stage of a file that does not exist; Postgres raises.

## Model

| member | source | states |
|---|---|---|
| Rules.GetRule | qc/rules.py:32-36 | finds a rule exactly when one with that id exists |
| Rules.GetActive | qc/rules.py:57-73 | raises exactly for an unknown rule id; otherwise the rule exactly when it applies to the event type and is in force |
| Rules.DeduplicateViolations | qc/rules.py:76-114 | the two-dictionary loop and the sort return the merged, ordered list of `Dedup` |
| Rules.DedupKeepsKeys | qc/rules.py:76-114 | merging neither loses nor invents a key, and repeats none |
| Rules.MergedDocsAreUnion | qc/rules.py:91-101 | a merged violation cites the union of the documents of its duplicates |
| Rules.DedupOrderIsCanonical | qc/rules.py:103-114 | with all events known, the order of the merged list depends only on the set of keys |
| Rules.DedupIdempotentExactly | qc/rules.py:76-114 | merging twice equals merging once exactly when, among the violations kept, no known and unknown event change places as the unknown one slides to its new position |
| Rules.DedupIdempotent | qc/rules.py:103-114 | idempotent when all event ids are known, and when none is |
| Rules.DedupNotIdempotentWhenMixed | qc/rules.py:109 | a concrete list with known and unknown events on which merging twice differs |
| Rules.MergingDistinctInOrderIsIdentity | qc/rules.py:76-114 | a list of distinct keys already in order is returned unchanged |
| Rules.CalculateScore | qc/rules.py:117-141 | the loop computes `Score`, including the KeyError cases |
| Rules.ScoreIsSetSum | qc/rules.py:117-141 | when defined, the score is 100 minus the penalties summed over the set of distinct keys, never below 0; and exactly when it is defined |
| Rules.ScoreDependsOnKeysOnly | qc/rules.py:117-141 | permuting or duplicating violations does not change the score |
| Rules.ScoreIsAntitone | qc/rules.py:117-141 | with non-negative penalties, more violations never raise the score, which stays in 0..100 |
| Reports.SupportingHits | qc/rag_support.py:41-66 | keeps exactly the requested hits that are strong, on topic, active and about the rule |
| Reports.SupportingStands | qc/rag_support.py:52-66 | the hits kept stand in the order they had, each as often as it came |
| Gate.QualityGate.Check | qc/quality_gate.py:46-284 | reports exactly the warranted findings, passes exactly when there are none, raises exactly when the score cannot be recomputed, with that error |
| Gate.CheckEvents | qc/quality_gate.py:56-85 | event findings are exactly the warranted ones; the index keeps the first event of each id |
| Gate.CheckViolations | qc/quality_gate.py:87-239 | violation findings are exactly the warranted ones; all violations are scorable exactly when rule and event of each are known |
| Gate.CheckDocuments | qc/quality_gate.py:178-216 | document findings of one violation, and the candidate hits gathered for it |
| Gate.CheckReport | qc/quality_gate.py:257-284 | findings about pending issues, disposition, audit and business fact |
| Gate.GatePassesExactlyTrustworthy | qc/quality_gate.py:46-284 | the gate passes exactly the reports whose evidence, rules, documents, keys, score and disposition are all in order |
| Gate.ExpectedScoreIsStated | qc/quality_gate.py:241-255 | for sound, distinct violations the expected score is max(0, 100 minus the sum of the listed penalties) |
| Gate.LookupsAgree | qc/quality_gate.py:56-71 | first-wins and last-wins event lookups agree when ids are unique |
| Findings.FindingsAreJustified | qc/quality_gate.py:46-284 | for all twenty kinds: a finding is warranted exactly when the fields of the event, violation, rule, hits or report it points at justify it, said field by field |
| Findings.EventIdsAre | qc/quality_gate.py:13 | an event id is canonical exactly when it is EVT- and 32 digits or capitals up to F |
| Extractor.EventIdIgnoresListing | qc/event_extractor.py:101-125 | the event id ignores order and repetition of the cited turns |
| Extractor.Extract | qc/event_extractor.py:141-213 | rejects unknown turns; otherwise, for each id in the order the ids come up, the first of its most confident candidates, as a well-formed event |
| Extractor.EventSays | qc/event_extractor.py:101-125 | the event of a candidate field by field: its turns once each in transcript order, its id the digest of call, type, those turns and their texts |
| Analyzer.CheckEventConduct | qc/direct_analyzer.py:307-450 | a violation exactly for a breach, with the rule's name and penalty and exactly the evidence turns; otherwise nothing, the ValueError of an event without turns, or the KeyError of its rule |
| Analyzer.RetainBest | qc/direct_analyzer.py:259-263 | one hit per document, the best one, in the order in which the documents come up |
| Analyzer.BestIsFirst | qc/direct_analyzer.py:261-263 | the best hit of a document is the first of those that no other outscores |
| Analyzer.JudgeEvent | qc/direct_analyzer.py:145-256 | one event leads to nothing, a pending issue, a punishment, or its own exception, exactly as its verdict says |
| Analyzer.Analyze | qc/direct_analyzer.py:111-290 | the report of the whole loop; raises exactly when some event does, with the error of the first |
| Verdicts.BreachIsMisconduct | qc/direct_analyzer.py:307-450 | which agent turns make a breach, type by type and term list by term list, and which turns are cited for it |
| Verdicts.ShippedRule | knowledge/rules/quality_rules.json:14-129 | every event type is listed by exactly one shipped rule, the one the analyzer looks up |
| Verdicts.BreachIsAnswered | qc/direct_analyzer.py:145-256 | with the shipped rules every unambiguous breach is answered under the rule that lists its type: by a violation when that rule is in its time and a hit backs it, and else by the pending issue that says what is missing |
| Verdicts.ViolationsAnswer | qc/direct_analyzer.py:145-256 | whatever the rules, every violation stands for an unambiguous breach and cites a rule that lists the event's type, is in its time and is backed |
| Verdicts.PendingsAnswer | qc/direct_analyzer.py:221-252 | every pending issue stands for an unambiguous breach whose rule does not apply, or applies without support, as its code says |
| Verdicts.RaisesExactly | qc/direct_analyzer.py:129-230 | with the shipped rules an analysis stops only at a failed search or at an unambiguous event without a turn in the transcript |
| Analyzer.PunishmentsMergeToThemselves | qc/direct_analyzer.py:264-267 | on well-extracted events merging changes no violation |
| Analyzer.PunishmentsScore | qc/direct_analyzer.py:276-281 | on well-extracted events the score is always defined |
| Analyzer.AnalyzerGateAgreement | qc/quality_gate.py:46-284 | an analyzed report passes the gate exactly when the call is clean and the best hit of every cited document, over the whole call, is on topic, active and, for one, about the rule |
| Analyzer.CleanAnalysisPasses | qc/direct_analyzer.py:111-290 | when a document id fixes its metadata: passes exactly when no event is ambiguous, the audit has no error and no breach is unsupported |
| ChunkIds.ChunkIdsDiffer | qc/rag.py:138 | two parts have the same chunk id only if they have the same number in documents of the same id |
| Knowledge.LoadDocuments | qc/rag.py:165-185 | the policies and cases, then every rule once per event type, with related rules and status filled in |
| Knowledge.ResolveIs | qc/rag.py:250-251 | a chunk id resolves to that part of the last document of its id that is long enough |
| Knowledge.MetadataFixedExactly | qc/rag.py:250-251 | for every index: a document id fixes the metadata of what can be returned exactly when the documents of one id that no later one is long enough to hide agree |
| Knowledge.AlikeAgree | qc/rag.py:250-251 | documents of one id that are cut into equally many chunks are returned only as the last of them |
| Knowledge.ChunkIdsAreUniqueExactly | qc/rag.py:131-142 | chunk ids are unique exactly when document ids are |
| Knowledge.EarlierFilingsAreHidden | qc/rag.py:178-179 | for every index: no filing of a rule under another event type than its last is ever returned |
| Knowledge.RuleBacksExactlyItsLastType | qc/rag.py:178-179 | a rule with an id of its own is returned under its last event type only, and its text backs exactly that type, in the rule's time |
| Knowledge.DistinctIdsAgree | qc/rag.py:165-185 | policies, cases and rules with ids of their own: an id fixes the metadata, however many event types a rule lists |
| IndexLaws.LoadedLoads | qc/rag.py:165-185 | every loaded document field by field: policies and cases first, then each rule under each of its types, with status, period and related rules |
| IndexLaws.ChunksAreParts | qc/rag.py:131-142 | the parts of a document make up its trimmed text, 800 characters each but the last, and carry its id with their number in at least four digits |
| IndexLaws.ChunkedInOrder | qc/rag.py:189 | documents are indexed one after the other, each with all of its parts |
| KnowledgeSearch.KnowledgeIndex.Build | qc/rag.py:187-189 | the chunks of every loaded document, in order |
| KnowledgeSearch.KnowledgeIndex.Search | qc/rag.py:218-269 | the answer for the given scores: filter, two rankings, fusion, resolution, reranking or its fallback, cut; every hit is resolved by its own chunk id |
| KnowledgeSearch.AnswerIsFromIndex | qc/rag.py:250-269 | whatever the scores, a search returns resolved chunks only, and no more than asked for |
| KnowledgeSearch.FilterIsHardExactly | qc/rag.py:201-225 | for every index: searches in memory return only hits that pass the metadata filter exactly when no chunk id of an eligible chunk resolves to a reportable ineligible one |
| KnowledgeSearch.UniqueIdsFilter | qc/rag.py:201-225 | with unique document ids the metadata filter is hard |
| SearchLaws.SearchFinds | qc/rag.py:218-269 | every search that answers: the best admitted chunks by either score, the sums of reciprocal ranks, the heaviest candidates by reranker or by fused score and bonus, and what each hit reports of its document |
| SearchLaws.ListingTops | qc/rag.py:225-248 | the ranking in memory lists the best admitted chunks, higher score first, then the smaller chunk id, then the earlier one |
| SearchLaws.SearchFailsExactly | qc/rag.py:119 | a search divides by zero exactly when the rank that cancels the constant is taken; otherwise it fails only for a missing field |
| IndexedCalls.IndexFixesMetadata | qc/direct_analyzer.py:129-145 | every call over an index whose visible documents of one id agree sees one metadata per document id |
| IndexedCalls.CleanCallsPassOverDistinctIds | qc/direct_analyzer.py:111-290 | over an index with distinct ids, as shipped, the gate passes exactly the clean calls |
| IndexedCalls.OwnTextSupportsTheLastType | qc/direct_analyzer.py:230-256 | a punished event that cites its rule's own text is of the last event type the rule lists |
| RetentionExample.CleanAnalysisMayFail | qc/rag.py:250-251 | without that hypothesis: a rule file, the index built from it with the default settings, and a receivable call whose search that index answers, clean and analyzed without an exception, whose report the gate refuses |
| AgentLoop.MergeHits | qc/agent_loop.py:467-471 | merged hits keep, per document, the one met last, in the order in which the documents come up |
| AgentLoop.QualityLoopExecutor.Execute | qc/agent_loop.py:399-424 | exactly what each action makes of the report, and exactly when and what it raises |
| AgentLoop.QualityLoopExecutor.ReviseReport | qc/agent_loop.py:478-524 | keeps exactly the evidenced violations, rescoring and redeciding; on KeyError only the violations have changed |
| AgentLoop.WithEvidenceSelects | qc/agent_loop.py:488-493 | a revision only deletes violations, keeps their order, and leaves only evidenced ones |
| AgentLoop.EvidencedSurvives | qc/agent_loop.py:488-493 | a revision loses no violation whose evidence is valid |
| AgentLoop.WithEvidenceKeeps | qc/agent_loop.py:487-493 | a revision keeps, in order and as often, the violations with evidence in the transcript, and no other |
| AgentLoop.RevisedRevises | qc/agent_loop.py:495-514 | the revised score, business fact and disposition, read off the violations kept, the audit and the events; or the error of the score |
| AgentLoop.SafeEditsCompose | qc/agent_loop.py:393-524 | any number of edits leaves call, events, pending issues alone and the violations original or filtered once |
| AgentLoop.BoundedAgentLoop.Run | qc/agent_loop.py:135-248 | for every planner and evaluator: safe edits and budgets; the run completes exactly at the first pass at which the gate passes and the verdict is PASS, gives up exactly at a call for a human or with time or a budget spent, raises what the pass under way raises, and its trace tells the passes |
| Service.DeduplicateErrors | qc/service.py:39-47 | keeps the first error of each code, stage and message, in order, and no other |
| Service.IssueIsVoiced | qc/quality_gate.py:58-282 | the code and message that each finding of the gate is reported under |
| Service.RequiresLoop | qc/direct_analyzer.py:453-465 | no loop exactly for a clean report that passed, and otherwise the first reason that applies |
| Service.QualityAnalysisService.Decide | qc/service.py:87-146 | fails exactly when the analysis, a gate check or the loop does, with that error; otherwise COMPLETED exactly when the final report passes and no error is left, and PARTIAL otherwise, with exactly the errors of loop, gate, audit and pending issues, in this order and without repetition |
| Service.QualityAnalysisService.Analyze | qc/service.py:67-199 | FAILED exactly when the run is refused, the decision failed, an event was not appended or the end was refused, with that error; otherwise the decision's status, report and errors; escapes exactly where the source lets it |
| Service.ErrorsAreLeft | qc/service.py:126-146 | no error is left exactly when the loop left none and the gate passes the report |
| Service.CompletedIsBeyondDoubt | qc/service.py:142-146 | a completed report rests on no ambiguous event, pending issue or failed audit, adds no violation, and has the stated score |
| Service.CleanAnalysisNeedsNoLoop | qc/direct_analyzer.py:453-465 | end to end: the loop is skipped exactly when the call is clean and one hit per document keeps its support |
| Pipeline.Effect | qc/batch/pipeline.py:241-273 | a value is handed on exactly when it has the shape its stage promises, a transcript with turns of distinct ids in order of their starts, a PARTIAL analysis only with its report sent to a human; every refusal with its code and retryability |
| Pipeline.CheckpointRoundTrip | qc/batch/checkpoints.py:63-168 | a completed value is the value loaded back for that version, unless the version is blank |
| Executor.CheckpointSession.Load | qc/batch/checkpoints.py:63-106 | loads exactly a DONE row of the version whose artifact is intact and well-formed, and what it reads then |
| Executor.CheckpointSession.Begin | qc/batch/store.py:250-291 | the row is RUNNING with the next attempt number, without artifact or error |
| Executor.CheckpointSession.Complete | qc/batch/checkpoints.py:111-168 | writes artifact, then row, field by field; refuses a wrong kind before either |
| Executor.CheckpointSession.InvalidateDownstream | qc/batch/checkpoints.py:188-189 | turns exactly the stages after TRANSCODE, or QC after ASR, back to PENDING with their attempts kept |
| Executor.Attempt | qc/batch/pipeline.py:176-231 | one attempt: its outcome under deadline and timeout, the row it leaves, and that its writes are protocol steps |
| Executor.AttemptUntilSettled | qc/batch/pipeline.py:175-238 | the loop: every attempt but the last failed retryably; at most max(1, max - previous) attempts; the whole database after it |
| Executor.ExecuteStage | qc/batch/pipeline.py:132-238 | deadline, cache hit, final failure and attempt loop, with the database unchanged in the first three; every attempt timed by the clock, and each but the last worth another one |
| Executor.TrialEnds | qc/batch/pipeline.py:176-231 | what one attempt comes to by the clock and the answer: deadline before, refusal, deadline after, stage timeout, or the value |
| Executor.AttemptedIsTried | qc/batch/pipeline.py:175-238 | every attempt but the last ended with a retryable error below the budget; the last succeeded, or failed for good or with the budget spent |
| Executor.ExecutionOutcome | qc/batch/pipeline.py:150-238 | success leaves a DONE row of the version; no attempt exactly on deadline, cache hit or final failure; other rows untouched |
| Executor.BudgetHoldsExactly | qc/batch/pipeline.py:152-175 | a call that begins an attempt ends within the budget exactly when it started below it; a call goes beyond a spent budget exactly when it is in time, nothing is loadable and the row is not FAILED |
| Executor.ProcessFile | qc/batch/pipeline.py:276-391 | from any state a crash can leave, the stages take their turns in order until one fails, and the result is the last one's error or the analysis, field by field; it is one that recomputing everything can give |
| Recovery.StepKeeps | qc/batch/pipeline.py:132-391 | every step, crash, artifact loss and upgrade keeps the freshness invariant |
| Recovery.LoadableIsFresh | qc/batch/checkpoints.py:22-27 | in every reachable state a loadable ASR, EMOTION or QC checkpoint was computed from the upstream artifact that would be loaded |
| Recovery.ReuseRefinesRecomputation | qc/batch/pipeline.py:276-391 | every result of any crash-and-resume run is a result of recomputing everything |
| Recovery.FinishedSpeaks | qc/batch/pipeline.py:366-391 | every reachable result: DONE exactly for a report nobody must see, HUMAN_REVIEW exactly for the others, FAILED_FINAL exactly with a reason; and where request, analysis and reason come from |
| Resumption.ResumeEquivalence | qc/batch/pipeline.py:276-391 | deterministic stages: status, request, analysis and reason equal those of one uninterrupted run; only a blank error text may be replaced, and only below producers with a version |
| Resumption.SuccessIsUnique | qc/batch/pipeline.py:276-391 | flaky stages, deadlines, upgrades: all runs that end well with the same versions end alike |
| Resumption.CrashesOutrunTheBudget | qc/batch/pipeline.py:163-166 | any number of attempts can pile up through crashes: RUNNING rows are not held against the budget |
| Resumption.FailureOutlives | qc/batch/pipeline.py:162-174 | any stage, any reachable idle state: a final failure whose earlier checkpoints load is raised again as its row reads, even after upgrades |
| BlankReasons.ResumeEqualsExactly | qc/batch/pipeline.py:162-174 | every finished run equals the uninterrupted one exactly when that one does not fail with a blank text, or fails downstream of a producer without a version |
| Retry.DelayIsBoundedAndMonotone | qc/batch/retry_policy.py:60-65 | back-off never shrinks with the attempt number, exceeds its base by jitter times the draw, and stays within maximum plus jitter |
| Retry.BaseDoubles | qc/batch/retry_policy.py:60-64 | the base starts at the initial delay and doubles with every attempt, up to the greatest delay |
| Retry.ClassifySays | qc/batch/retry_policy.py:20-46 | code and retryability of every kind of exception; a timeout is a rate limit exactly when its text contains one of three words |
| StageStore.SqliteStages.BeginStage | qc/batch/store.py:250-291 | the newest row is RUNNING with the next attempt number; other rows keep their view |
| StageStore.SqliteStages.CompleteStage | qc/batch/store.py:293-325 | completes exactly a RUNNING newest row, otherwise conflicts without change; other stages keep their view |
| StageStore.SqliteStages.FailStage | qc/batch/store.py:327-358 | fails exactly a RUNNING newest row, otherwise conflicts without change; other stages keep their view |
| StageStore.SqliteStages.InvalidateStages | qc/batch/store.py:360-381 | readers see exactly the listed stages of the file PENDING with their attempt numbers, everything else as before |
| StageStore.PostgresStages.BeginStage | qc/batch/postgres_store.py:500-516 | appends a RUNNING row with the next attempt number; KeyError exactly for an unknown item |
| StageStore.PostgresStages.CompleteStage | qc/batch/postgres_store.py:518-540 | completes exactly a RUNNING newest row, otherwise conflicts without change; other stages keep their view |
| StageStore.PostgresStages.FailStage | qc/batch/postgres_store.py:542-561 | fails exactly a RUNNING newest row, otherwise conflicts without change; other stages keep their view |
| StageStore.PostgresStages.InvalidateStages | qc/batch/postgres_store.py:563-575 | readers see exactly the listed stages of the file PENDING with their attempt numbers, everything else as before |
| StageStore.StepRefines | qc/batch/postgres_store.py:479-575 | one request: same answer and same newest-row view in both stores, unless the item is unknown |
| StageStore.PostgresRefinesSqlite | qc/batch/store.py:235-381 | any request sequence: the stores are indistinguishable exactly when it begins stages of existing items only |
| StageStore.PostgresLogIsAppendOnly | qc/batch/postgres_store.py:500-575 | the n-th execution row carries attempt n, and superseded rows never change |
| BatchStore.PostgresBatchStore.ClaimFile | qc/batch/postgres_store.py:584-607 | compare-and-set from PENDING or INTERRUPTED; the job follows |
| BatchStore.PostgresBatchStore.SetFileStatus | qc/batch/postgres_store.py:609-645 | only legal non-final transitions; every error leaves the store unchanged |
| BatchStore.PostgresBatchStore.FinalizeFile | qc/batch/postgres_store.py:647-729 | only from RUNNING to a final status; the job closes with its last item: FAILED exactly with a failed item, PARTIAL exactly with a reviewed and no failed one, COMPLETED exactly with done ones only |
| BatchStore.PostgresBatchStore.FinalizeFileWithDeadLetter | qc/batch/postgres_store.py:731-766 | finalisation and dead letter together or neither |
| BatchStore.PostgresBatchStore.CreateBatchWithOutbox | qc/batch/postgres_store.py:91-209 | replay, conflict, capacity and duplicate cases; otherwise job, items, events and binding at once |
| BatchStore.PostgresBatchStore.PendingOutboxEvents | qc/batch/postgres_store.py:262-284 | the oldest unsent events in order, all of them when below the limit |
| BatchStore.PostgresBatchStore.MarkOutboxPublished | qc/batch/postgres_store.py:286-299 | only a pending event becomes published |
| BatchStore.PostgresBatchStore.MarkOutboxFailed | qc/batch/postgres_store.py:301-327 | counts the failure and gives up at the limit |
| BatchStore.PostgresBatchStore.MarkInterruptedRunning | qc/batch/postgres_store.py:804-814 | every RUNNING item of the batch becomes INTERRUPTED, nothing else changes, and their number is returned |
| BatchStore.PostgresBatchStore.GetBatch | qc/batch/service.py:225-241 | the status recomputed from the items, said of the items: a final one when all have ended, else RUNNING exactly when one is running or interrupted, else QUEUED |
| BatchLaws.ClaimKeeps | qc/batch/postgres_store.py:584-607 | a claim keeps every store law and changes one item legally |
| BatchLaws.FinalizeKeeps | qc/batch/postgres_store.py:674-729 | a finalisation keeps every store law but the dead letter that is due |
| BatchLaws.DeadLetterKeeps | qc/batch/postgres_store.py:731-766 | finalisation with dead letter keeps every store law |
| BatchLaws.CreateKeeps | qc/batch/postgres_store.py:91-209 | creation keeps every store law, touches nothing that exists and respects the limit |
| BatchLaws.StoredMeetsDerived | qc/batch/service.py:225-241 | stored and recomputed status: equal on final values, and exactly when they differ |
| BatchLaws.StoredStatusSays | qc/batch/postgres_store.py:707-728 | the stored final status, read off the items of the batch |
| BatchSafety.TransactionKeeps | qc/batch/worker.py:91-166 | a legal transaction of anyone disturbs no other process |
| BatchSafety.PublisherStepKeeps | qc/batch/outbox_publisher.py:65-85 | every step of any publisher keeps the protocol invariant |
| BatchSafety.TakeStepKeeps | qc/batch/worker.py:76-101 | delivery, reclaim, status check and claim keep the invariant |
| BatchSafety.GiveStepKeeps | qc/batch/worker.py:102-169 | execution, finalisation, giving back and acknowledgement keep the invariant, zombies included |
| BatchSafety.StepKeeps | qc/batch/worker.py:76-223 | every step of the whole system, crashes included, keeps the invariant |
| BatchGuarantees.NoLostWork | qc/batch/worker.py:76-169 | in every reachable state each item is final or still tracked by an event or an unacknowledged entry; acknowledged means final |
| BatchGuarantees.OneEffectiveResult | qc/batch/postgres_store.py:584-766 | once final an item never changes; finalised once; entries = interrupts + finalisations + running; one dead letter exactly for FAILED_FINAL |
| BatchGuarantees.AdmissionControl | qc/batch/postgres_store.py:122-143 | the backlog never exceeds its limit; items and events correspond one to one |
| BatchGuarantees.BindingsAreForGood | qc/batch/postgres_store.py:105-120 | a bound idempotency key keeps its hash and batch for ever: later requests are answered with that batch or conflict, and create nothing |
| BatchGuarantees.BatchStatusAgreement | qc/batch/postgres_store.py:707-728 | in every reachable state the stored batch status is final exactly when all items are, and then is the recomputed one |
| BatchGuarantees.BatchStatusSays | qc/batch/postgres_store.py:707-728 | in every reachable state, when all items of a batch are final: stored and recomputed status are FAILED, PARTIAL or COMPLETED exactly as its items say |
| BatchGuarantees.DoneAndWaitingDiffer | qc/batch/service.py:237-240 | one done and one waiting item: stored RUNNING, recomputed QUEUED |
| Workers.HandleMessage | qc/batch/worker.py:76-169 | a run of the protocol in which this worker goes from reading to resting, with any steps of others before each call; success exactly when the claim is won, the pipeline does not raise and the item is still RUNNING, and then the item carries the outcome of executing the claimed row and the entry is acknowledged; otherwise a claimed item is INTERRUPTED if it was still RUNNING, and its entry stays as it was |
| Workers.RunGoesOn | qc/batch/worker.py:76-169 | a protocol run that reached the handler's start is continued by what the handler does, so every guarantee over runs goes on holding |
| Workers.TakeItem | qc/batch/worker.py:76-101 | claims the row exactly when it waits at the first look and still at the claim; otherwise the entry ends acknowledged exactly if the item is finished |
| Workers.Settle | qc/batch/worker.py:102-150 | finalises exactly a RUNNING item, with a dead letter exactly for a failure |
| Workers.PublishOnce | qc/batch/outbox_publisher.py:65-85 | exactly the oldest unsent events up to the limit are handled: on the stream and marked so where XADD succeeds, counted where it fails; the count returned is the number on the stream; the whole is a run of the protocol |
| Review.PostgresReviewStore.EnsureReviewTask | qc/review_store.py:47-79 | one task per run: the existing one, or a new pending one of version 1 |
| Review.AttachingKeeps | qc/review_store.py:82-87 | attaching sets the batch item of the run's task and nothing else |
| Review.PostgresReviewStore.SubmitLocked | qc/review_store.py:197-267 | the section under the row lock: replay, conflicts, or a first decision that records the submission word by word, points at it exactly when it settles the task, and keeps the reason when it does not |
| Review.PostgresReviewStore.Submit | qc/review_store.py:168-288 | unlocked read, then locked section, with others in between: the ruling at the read for a replay, at the lock otherwise |
| Review.SubmissionIsRuled | qc/review_store.py:197-267 | every submission is ruled on by the task and the revision that has its key, said field by field |
| Review.PendingHasNoRevision | qc/orm_models.py:438-452 | a first decision cannot violate the unique constraints |
| Review.SubmissionKeeps | qc/orm_models.py:395-416 | every submission keeps the pointer and version rules and one revision per decided task |
| Review.FirstWriterWins | qc/review_store.py:168-267 | after a first decision every later submission, through any history, changes nothing: replay, hash conflict or state conflict |
| RankFusion.RrfMerge | qc/rag.py:113-120 | the rows are the complete ranking of the union with exact reciprocal-rank sums, cut to the limit |
| RankFusion.SingleContribution | qc/rag.py:117-119 | in a list without repeats a key contributes the reciprocal of its rank, or nothing |
| RankFusion.Dominance | qc/rag.py:113-120 | a key better in every list where another appears comes before it whenever that other is returned |
| RankFusion.LengthIsUnion | qc/rag.py:120 | as many rows as the union has keys, cut to the limit |
| RankFusion.RankingIsUnique | qc/rag.py:120 | the ranking is determined by the two lists |
| SearchLaws.RankingFuses | qc/rag.py:113-120 | the rows are the keys with the greatest sums of reciprocal ranks, the greatest first, ties by key, each once |
| Common.StringLessIsLexicographic | qc/rag.py:120 | texts are compared at the first character in which they differ |
| EmotionClient.EmotionSubprocessClient.ReadResponse | qc/batch/emotion_worker.py:329-362 | reports the first item in time that is no noise, and lateness exactly when only noise arrives in time |
| EmotionClient.EmotionSubprocessClient.Start | qc/batch/emotion_worker.py:202-257 | keeps a live child; otherwise spawns one, and succeeds exactly when its first word is its greeting; every failure with its code and retryability |
| EmotionClient.EmotionSubprocessClient.Infer | qc/batch/emotion_worker.py:259-308 | the first thing heard after the request decides: its value, its error, or the fault it shows, with the code and retryability of each; a value answers this very request; the child stays in use exactly after a result or an error |
| EmotionClient.AnswersAreDistinct | qc/batch/emotion_worker.py:329-362 | no two messages of a child answer the same request |
| Throttle.LlmThrottle.Release | qc/batch/orchestrator.py:52-60 | one release, at the reading after the sleep, spaced from the previous one |
| Throttle.RateBound | qc/batch/orchestrator.py:52-60 | any half-open minute holds at most rpm releases |

## Left out

- Concurrency inside the database: READ COMMITTED anomalies between finalisations of different items are not modelled.
- `callStartedAt` defaults to the clock; requests are compared by transcript, with that instant held fixed.
- Stream trimming, and leases as times: any unacknowledged entry may be delivered or reclaimed at any moment instead.
- Two executors inside one file's pipeline at once, where checkpoints of one can be overwritten by the other.
- The SQLite batch driver of `qc/batch/orchestrator.py` and its claim and finalise statements: the same transitions
  as the Postgres store without messages, outbox and dead letters. `InMemoryBatchService`: the same admission rules.
- Workers.HandleMessage: the dead letter's stage, attempts and texts are reduced to one code, because they only report.
- Workers.PublishOnce: the delay before the next send of an event is not modelled; any unsent event may be sent. The
  method runs without other processes in between; publishers that interleave are those of `Protocol`.
- Executor.ExecuteStage: the pause between attempts is not part of the state; `Retry` has its bounds. Metrics and spans
  are left out.
- Analyzer.CheckEventConduct: keyword lists and text matching are a predicate over a list and a text.
- Analyzer.Analyze: the audit snapshot is given; its retrieval, and stage timings, are not modelled.
- Extractor.Extract: normalisation and JSON encoding are inside the digest parameter, which yields 32 hexadecimal
  digits.
- AgentLoop.BoundedAgentLoop.Run: evidence windows, focus, gaps and observations only feed planner and evaluator, which
  are arbitrary; a search without any event is a no-op as in the source.
- Service.QualityAnalysisService.Analyze: route reasons, review summaries and attempt counts of errors.
- Gate.QualityGate.Check: timezone-naive instants; the support threshold is a type limited to 0..1. The
  findings are stated as a set, without the order in which they are listed.
- RankFusion.RrfMerge: float rounding; the sums are exact.
- Review.PostgresReviewStore.Submit: fresh revision ids are given; identifier collisions are not modelled.
- EmotionClient.EmotionSubprocessClient.Infer: process trees, pipes and threads are behind the observations of a
  process.
- KnowledgeSearch.KnowledgeIndex.Search: embeddings, BM25 and reranker scores are given; knowledge versions and
  timezone-naive instants are left out; title, version and category are taken to be present.
- Knowledge.LoadDocuments: reading the files; a `documentStatus` of null.
- Rerankers, BM25, knowledge builds, prompt building, exports, progress reports, API server, migrations, evaluation:
  mostly I/O, or easy members.
- History compatibility: `record_stage`, `last_completed_stage`, rows with zero attempts, DEAD_LETTER as an item status.
