# CreditLens: verified core

A Dafny model of the parts of CreditLens that decide what a report or an answer may rely on. All state is plain data;
each step the services take is a function or a method over it, and the properties are proved for all inputs, all runs
and all interleavings.

**Full review with human review** (EventLog, FullReview, ReviewInvariants, ReviewVerdicts, ReviewSafety, HumanReview,
DecisionHistory, AutomaticPath, ReviewEndings, ReviewStages, OverallVerdict, ClaimProvenance, Supervisor). A run is a
list of elementary writes made in a database session. The plan of writes of an execution is computed from whatever the
agents, the auditor and the report do; cutting the list anywhere is a crash, and only what a commit had copied
survives. Human decisions and closings then arrive in any order. The class `Supervisor.ReviewRun` is the supervisor
and the review service themselves, with their loops and fields, proved to make exactly the planned writes.

**Grounded QA** (QARun, QASafety, QABounds, QAFailures, QAStages, QAHash, QARecords, QARequests, QAReplay, QAService).
The execution with its two nested repair loops against arbitrary outcomes, the failure record a later request reads
back, every interleaving of concurrent requests, and storing and replaying an answer. The class
`QAService.GroundedRun` has the loops.

**Evidence auditor and answer gate** (Contracts, EvidenceAuditor, EvidenceFaults, ClaimAudit, AnswerAudit, GroundedQA,
AnswerAgreement, AuditSoundness, AnswerText, CaseSnapshot). The auditor's three claim lists as a mutable object, the
conditions under which a claim is accepted, and the agreement between the materializer, the auditor and the service's
downgrade.

**Numbers** (Decimals, ChineseNumerals, NumericSpans). Normal forms of decimals, the Chinese numeral automaton, and
the selection of numeric spans.

**Producers and their checkers** (RunTrace, Resplit, Ablation). The trace summary and its two consumers, the
leakage-free dataset split, and the ablation harness with its verifier.

Automatic induction is switched off on every lemma, so that every inductive proof is written out.

## Findings

- A run can complete with an undecided claim: the auditor passes over the claims of a FAILED artifact that is not a core
  agent's, and the supervisor completes if no claim was rejected or sent to review. The comments there say that Auditor
  rejections and open claims block reporting; the code is followed. The exact condition is proved.
- The materializer answers a draft whose only claim is a SUPPORTED one of category DATA_CONFLICT, and the auditor refuses
  that answer. The exact condition is proved.
- SUBMIT_REPORT and APPROVE_REPORT_DRAFT can never succeed: while a run is under review something is undecided, and the
  ruling that decides the last claim completes the run itself.
- The supervisor does not look at the auditor's overall verdict: an invalid case on which no agent makes a claim still
  completes, and so does a calculation that does not replay if no claim cites it. The exact condition is proved, and
  both executions are given.
- A question with nothing retrieved moves straight to AUDITING and is generated there.
- The reader of Chinese numerals misreads two families of texts. A zero right before a unit counts the unit zero times, so
  two thousand, zero, ten (2010) reads 2000; and a last digit right after a hundred or thousand is taken for ones, so one
  hundred, two (120) reads 102. A text is read as the number it denotes exactly if it is of neither family.
- The fallback for small intents in the split script can never apply: the target is at least one as soon as there is a
  question, so something is always picked.

## Model

| member | source | states |
|---|---|---|
| DecisionHistory.ReportExactlyWhenCompleted | src/creditlens/agents/supervisor.py:401-446 | In every state reachable by any execution, cut off anywhere, and any requests: a report exists iff the run is COMPLETED, it is the only one and shows exactly the audited and human-approved claims; something is left undecided iff no human decided and a failed non-core artifact carries claims; no later request changes anything |
| DecisionHistory.ReportSaysExactly | src/creditlens/agents/report_agent.py:124-197 | In every reachable state that is COMPLETED the one report is version 1, shows exactly the claims that are audited or human-approved, counts all others as excluded, and is an approved draft iff a human decided, else a verified one |
| HumanReview.ReachableIsGood | src/creditlens/agents/supervisor.py:573-594 | Every reachable state satisfies the whole invariant: gap-free event numbers, version = start + versioning events, a log that reads back as one legal path to the current status, one decision per version, the report invariant, and something to review while under review |
| ReviewSafety.EveryCrashIsGood | src/creditlens/agents/supervisor.py:236-446 | For any agents, audit and report outcome, with or without stage commits, the rows committed after any prefix of the writes satisfy that invariant |
| ReviewSafety.AgentsFit | src/creditlens/agents/supervisor.py:274-362 | After any number of turns of the agent loop every prefix was safe, and the loop goes on only with all claims pending and claim ids distinct |
| ReviewSafety.ChallengeFits | src/creditlens/agents/supervisor.py:370-399 | The challenger stage keeps the session safe whether it returns, raises or loses its ledger |
| ReviewSafety.AuditIsSafe | src/creditlens/agents/supervisor.py:401-446 | The audit and what follows it are safe at every write and end in rows that may be committed |
| ReviewInvariants.StepIsSafe | src/creditlens/agents/supervisor.py:59-72 | A single legal write keeps event numbering, version count, status path, decision versions and whatever it commits; the only move beyond the table is AUDITING to FAILED |
| ReviewInvariants.EmitKeepsTrace | src/creditlens/agents/supervisor.py:722-752 | The event writer, resumed or fresh, gives the next event exactly the number after the last |
| FullReview.ResumedWriterGoesOn | src/creditlens/agents/supervisor.py:722-752 | Whatever numbers the log holds, a writer that resumes gives its next event the highest number plus one |
| FullReview.NextVersionIsNext | src/creditlens/agents/report_agent.py:184-197 | Whatever versions exist, the next report is above all of them and one above some, or the first |
| ReviewInvariants.RecordKeepsVersionsApart | src/creditlens/agents/supervisor.py:960-961 | Recording a decision at the current version keeps all recorded decisions at distinct, earlier versions |
| ReviewVerdicts.AuditLeavesOpen | src/creditlens/agents/supervisor.py:706-719 | Applying an audit leaves undecided exactly the rejected claims, those for review, and those of failed non-core artifacts |
| ReviewVerdicts.AcceptedOrOpen | src/creditlens/agents/auditor.py:164-167 | A claim is accepted iff it is not rejected, not sent to review and not in a failed non-core artifact |
| AutomaticPath.VerdictsDecideTheEnd | src/creditlens/agents/supervisor.py:426-446 | An uninterrupted execution ends in HUMAN_REVIEW iff a claim was rejected or sent to review, else FAILED or COMPLETED by the report; the overall audit verdict plays no part |
| ReviewEndings.VerdictsReachedExactly | src/creditlens/agents/supervisor.py:274-401 | The verdicts come in iff case and documents are there, policy and financial return artifacts that do not say FAILED, no invocation ledger is lost, all claim ids are distinct and the auditor runs; a risk agent or challenger that raises or says FAILED does not matter; the auditor sees exactly what the agents returned |
| ReviewEndings.PolicyFailureEnds | src/creditlens/agents/supervisor.py:287-293 | A policy agent that raises, or says FAILED with distinct claim ids, ends the run FAILED without a report |
| ReviewEndings.FinancialFailureEnds | src/creditlens/agents/supervisor.py:338-341 | A financial agent that raises, or says FAILED with new claim ids, once policy has gone through, ends the run FAILED without a report |
| ReviewEndings.AuditFailureEnds | src/creditlens/agents/supervisor.py:401-420 | An auditor that raises ends the run FAILED without a report |
| ReviewEndings.NothingToReviewEnds | src/creditlens/agents/supervisor.py:250-262 | Without the case the run ends DATA_QUALITY_BLOCKED, without a document NEED_MORE_INFO, with no report |
| ReviewEndings.VerdictsEnd | src/creditlens/agents/supervisor.py:426-446 | When the verdicts on what the agents returned come in, the run ends in HUMAN_REVIEW iff a claim was rejected or sent to review, else FAILED if the report raises, else COMPLETED |
| ReviewEndings.ManifestIsExact | src/creditlens/agents/supervisor.py:274-399 | Then exactly one artifact per agent is kept, an empty FAILED one for an agent that raised; the manifest names exactly the agents that say DEGRADED, a risk agent that failed and a challenger that raised; the log tells how each agent came out and how many claims were accepted, rejected and sent to review |
| ReviewStages.CrashLosesOneStage | src/creditlens/agents/supervisor.py:536-594 | If every stage commits, the rows a crash leaves are those written up to the last move, checkpoint or commit, no more and no less |
| ReviewStages.CrashLosesAll | src/creditlens/agents/supervisor.py:536-594 | If stages do not commit, a crash before the end leaves the run as it was created |
| ReviewStages.FinishedTurnsSurvive | src/creditlens/agents/supervisor.py:281-361 | If every stage commits, whatever happens after an agent has had its turn, its artifact and those of the agents before it are kept, an empty FAILED one for an agent that raised |
| ReviewStages.PolicyFailureLeaves | src/creditlens/agents/supervisor.py:287-341 | A policy agent that fails leaves just its artifact, or an empty FAILED one, and one note of the failure |
| ReviewStages.FinancialFailureLeaves | src/creditlens/agents/supervisor.py:287-341 | A financial agent that fails leaves both artifacts, what policy came to, policy in the manifest iff it says DEGRADED, and one note of the failure |
| ReviewStages.AuditFailureLeaves | src/creditlens/agents/supervisor.py:401-420 | An auditor that raises leaves what every agent came to, an empty FAILED artifact in its own name and one note of the failure |
| OverallVerdict.CompletesAgainstTheAuditor | src/creditlens/agents/supervisor.py:430-432 | For every execution: it completes although the auditor is not satisfied iff its verdicts come in, its report does not raise, and either the case is invalid and no agent claims anything, or the case is valid, every claim is acceptable or passed over, and some artifact is rejected outright or has a calculation that does not replay |
| OverallVerdict.CompletesOnlyWithVerdicts | src/creditlens/agents/supervisor.py:274-432 | An execution that stops, raises or loses its audit before the verdicts are in never completes |
| OverallVerdict.InvalidCaseCompletes | src/creditlens/agents/supervisor.py:430-432 | A concrete execution on an invalid case with silent agents completes against the auditor |
| OverallVerdict.FailedReplayCompletes | src/creditlens/agents/supervisor.py:430-432 | A concrete execution with a calculation nobody cites that does not replay completes against the auditor |
| AutomaticPath.CompletedWithoutReview | src/creditlens/agents/supervisor.py:426-446 | A run completed without review leaves undecided exactly the claims of its failed non-core artifacts |
| AutomaticPath.FailedRiskCompletesUndecided | src/creditlens/agents/auditor.py:164-167 | A concrete family where that set is not empty: a risk analyst that reports FAILED but hands over a claim |
| HumanReview.CloseKeepsGood | apps/api/main.py:397-437 | Closing a broken run keeps the invariant from every committed state |
| HumanReview.ClosingExactly | apps/api/main.py:397-437 | Closing fails exactly the runs that have neither ended nor wait for a human or for data, with one event numbered next, and changes nothing else |
| HumanReview.SubmissionsNeverPass | src/creditlens/agents/supervisor.py:928-936 | SUBMIT_REPORT and APPROVE_REPORT_DRAFT are refused in every good state |
| HumanReview.AdmittedTakesEffect | src/creditlens/agents/supervisor.py:938-990 | An admitted decision that is not rolled back has its whole effect on decisions, claims and status, keeps the invariant and replies with the new status |
| ReviewStages.DecisionIsLogged | src/creditlens/agents/supervisor.py:960-982 | A decision that takes effect adds to the log, beside changes of status, itself and, for a ruling that leaves claims undecided, how many; it adds no artifact and names nobody degraded |
| ReviewStages.LostReportRollsBack | src/creditlens/agents/supervisor.py:966-982 | If the report cannot be written, exactly the rulings that name every claim left undecided are rolled back whole; every other decision takes effect as if it could |
| HumanReview.RequestsKeepGood | src/creditlens/agents/supervisor.py:847-990 | Any sequence of decision requests and closings keeps the invariant |
| DecisionHistory.KeyTakesEffectOnce | src/creditlens/agents/supervisor.py:890-901 | Over any request sequence a key takes effect at most once, is on record iff it was or has taken effect, and its record never changes |
| DecisionHistory.RepeatsAreTold | src/creditlens/agents/supervisor.py:88-112 | After a decision took effect and any later requests, another under its key changes nothing and is told the current status if it agrees in tenant, case, run, action, expected version, reviewer, reasons (absent counting as empty) and the claims named in any order, else a conflict |
| DecisionHistory.OtherClaimIsAConflict | src/creditlens/agents/supervisor.py:886-894 | Naming another claim under a key that has taken effect is a conflict |
| DecisionHistory.RefusalsExactly | src/creditlens/agents/supervisor.py:872-936 | Which decisions are refused, for which first reason, read off status, version, claims and the fields of the decision |
| DecisionHistory.OneDecisionPerVersion | src/creditlens/agents/supervisor.py:906-911 | At most one decision takes effect per expected version, never one for a version left behind; versions never fall |
| DecisionHistory.RulingClosesItsTargets | src/creditlens/agents/supervisor.py:914-927 | An admitted ruling decides exactly the claims it names, all undecided before, at least one |
| DecisionHistory.VerdictsAreFinal | src/creditlens/agents/supervisor.py:919-927 | A claim once audited, approved or rejected by a human never changes; claims neither appear nor vanish |
| ClaimProvenance.VerdictsAreExplained | src/creditlens/agents/supervisor.py:914-982 | In every reachable state a claim is human-approved, or human-rejected, iff a recorded decision approved, or rejected, it by name, and audited only if the auditor accepted it |
| ClaimProvenance.ReportedClaimsAreVouchedFor | src/creditlens/agents/report_agent.py:124-175 | Every claim in a report was found acceptable, with sound contract, evidence and calculations, by an audit that ran, or was approved by name in a recorded decision; none was rejected by one |
| DecisionHistory.Progress | src/creditlens/agents/supervisor.py:966-990 | No request adds an undecided claim; each ruling that takes effect removes at least one |
| DecisionHistory.RulingsFinishTheRun | src/creditlens/agents/supervisor.py:966-982 | From review a run stays under review or completes, completes iff nothing is undecided, and as many effective rulings as there were undecided claims complete it |
| DecisionHistory.ReviewCanAlwaysFinish | src/creditlens/agents/supervisor.py:966-982 | From every good state under review one approval of everything undecided completes the run |
| DecisionHistory.StoppedRunsStay | src/creditlens/agents/supervisor.py:903-904 | A run that has stopped other than for review is never changed by any request |
| DecisionHistory.EndsAreFinalInTheLog | src/creditlens/agents/supervisor.py:59-72 | In a log that reads back, no later event leaves COMPLETED, FAILED or another end |
| Supervisor.ReviewRun.EmitEvent | src/creditlens/agents/supervisor.py:732-752 | Appends one event with the next number, read from the log only by a resumed writer |
| Supervisor.ReviewRun.Transition | src/creditlens/agents/supervisor.py:573-594 | Refuses a move outside the table unless forced, else makes exactly the move write, committing if every stage commits |
| Supervisor.ReviewRun.PersistArtifact | src/creditlens/agents/supervisor.py:596-651 | Adds the artifact and one pending row per claim |
| Supervisor.ReviewRun.ApplyAuditToClaims | src/creditlens/agents/supervisor.py:706-719 | Three marking loops that amount to review over rejected over accepted, leaving other claims alone |
| Supervisor.ReviewRun.PersistReport | src/creditlens/agents/report_agent.py:124-197 | Adds the next version with exactly the accepted claims and the count of the rest |
| Supervisor.ReviewRun.RunTask | src/creditlens/agents/supervisor.py:281-361 | One turn of the agent loop makes exactly its planned writes |
| Supervisor.ReviewRun.RunAgents | src/creditlens/agents/supervisor.py:274-362 | The agent loop makes the writes of its plan and stops where the plan stops |
| Supervisor.ReviewRun.Challenge | src/creditlens/agents/supervisor.py:370-399 | The challenger stage makes its planned writes |
| Supervisor.ReviewRun.Audit | src/creditlens/agents/supervisor.py:401-446 | The audit stage runs the verifier and makes its planned writes |
| Supervisor.ReviewRun.ExecuteFullReview | src/creditlens/agents/supervisor.py:148-446 | Refuses a run that is not RECEIVED without effect, else makes all writes of the plan in order |
| Supervisor.ReviewRun.MarkFailed | apps/api/main.py:397-437 | Closes exactly the runs that have not stopped |
| Supervisor.ReviewRun.TargetsAreOpen | src/creditlens/agents/supervisor.py:913-927 | True iff every target parses to an undecided claim of the run |
| Supervisor.ReviewRun.Check | src/creditlens/agents/supervisor.py:872-936 | Finds the first reason to refuse a decision, in the order of the service |
| Supervisor.ReviewRun.ApplyRuling | src/creditlens/agents/supervisor.py:966-982 | Makes the writes of an approval or rejection; only a report that raises leaves it unfinished |
| Supervisor.ReviewRun.ApplyOther | src/creditlens/agents/supervisor.py:979-990 | Makes the writes of a submission or a request for changes |
| Supervisor.ReviewRun.ResumeAfterHumanReview | src/creditlens/agents/supervisor.py:847-990 | As one transaction equals the decision function on the committed rows: refused, rolled back or committed whole |
| QASafety.ExecutionIsLegal | src/creditlens/application/qa_service.py:71-77 | For any outcomes of setup, retrieval, generation and audit every write is legal where it comes, no move leaves the table, and the run ends COMPLETED iff it answers |
| QASafety.GeneratePath | src/creditlens/application/qa_service.py:1143-1179 | The output repair loop stays in its status, wherever it is entered |
| QASafety.RoundsPath | src/creditlens/application/qa_service.py:838-882 | The audit loop leaves the run at AUDITING whenever a candidate is approved |
| QASafety.ExecutionIsBounded | src/creditlens/application/qa_service.py:838-882 | At most R+1 audits and (R+1)(R+1) generator calls |
| QASafety.GenerateBound | src/creditlens/application/qa_service.py:1149-1179 | One generation costs between one and R+1 calls |
| QABounds.BoundsAreMet | src/creditlens/application/qa_service.py:838-893 | For every R some execution makes exactly (R+1)(R+1) calls and R+1 audits and fails |
| QABounds.ProvenanceExactly | src/creditlens/application/qa_service.py:1041-1071 | An answer passes the provenance check iff run, task, producer, prompt and contract versions are those of the run, it has a refusal code iff it abstains, and it names the invocations of its generator call, each once, in order, all under that prompt version |
| QABounds.AnswerHasPassed | src/creditlens/application/qa_service.py:838-930 | An answer is stored only after the last audit passed that very answer, which is what the last generator call returned; it is stored downgraded as that audit says, with its provenance checked, and every earlier audit was shown a candidate of its own and rejected it |
| QABounds.TurnShowsTheLastCall | src/creditlens/application/qa_service.py:838-882 | Going forward round by round, each audit is shown what the last generator call before it returned |
| QABounds.StoredAnswerStands | src/creditlens/application/qa_service.py:838-932 | If the audits are the auditor and generated artifacts are well formed, what a completed run stores is valid, has only claims that meet the contract on packed evidence that passes in full, and passes another audit with its own status derived and no downgrade left |
| QAFailures.FailureIsExplained | src/creditlens/application/qa_service.py:814-930 | An execution that does not answer ends with the exception of its setup, its retrieval or its last generator call, the output rejection of R+1 calls in a row, the exception of its last audit, the audit sentinel exactly after R+1 rejecting audits, or a provenance or query spec mismatch after a passing audit; every audit but the last has rejected |
| QAStages.CrashLosesLittle | src/creditlens/application/qa_service.py:814-893 | Wherever an execution stops, at most its last three writes are lost; at its end nothing is, or only the note of an answer that passed and could not be stored |
| QAStages.OutputsAreNumbered | src/creditlens/application/qa_service.py:1143-1179 | A generation notes every rejected output under its number from one, the last as final iff the limit is reached |
| QAStages.AnsweredRunIsLogged | src/creditlens/application/qa_service.py:830-920 | The log of an answered run counts its rejected audits from one, then says how many there were and whether the stored answer is in another state than the one generated |
| QAFailures.RejectedOutputIsRecorded | src/creditlens/application/qa_service.py:1336-1345 | An output rejected to the limit is recorded as GroundedQAOutputRejected, the sentinel as ANSWER_AUDIT_FAILED, a mismatch as unhandled |
| QAFailures.EveryCallIsListed | src/creditlens/application/qa_service.py:1182-1190 | However an execution ends, its committed run lists the invocations of every generator call, also of those that failed or were rejected |
| QAFailures.NothingPackedSkipsGenerating | src/creditlens/application/qa_service.py:814-819 | The first answer is generated at GENERATING if sections were packed, else at AUDITING |
| QARun.ErrorTypeOf | src/creditlens/application/qa_service.py:1336-1350 | Every exception is classified as a stable type: the audit sentinel as the audit failure, else its own error code, else its class name, each if stable, else the catch-all |
| QARun.AppendedInOrder | src/creditlens/application/qa_service.py:1182-1190 | New invocation ids come after the old ones, each once, in the order of first occurrence |
| QARun.TraceIdsAreExact | src/creditlens/application/qa_service.py:1316-1326 | The invocation ids are exactly those the traces have |
| QARun.TraceIdsInOrder | src/creditlens/application/qa_service.py:1316-1326 | They come in the order of first occurrence |
| QARecords.EveryStopIsGood | src/creditlens/application/qa_service.py:734-932 | The rows committed at any stop are good: gap-free log, legal path, version count, an answer iff COMPLETED |
| QARecords.CompletedStays | src/creditlens/application/qa_service.py:926-932 | Once COMPLETED is committed the execution changes nothing more |
| QARecords.MarkFailedIsGood | src/creditlens/application/qa_service.py:1192-1226 | Closing keeps rows good, closes exactly the unfinished ones, with the given type |
| QARecords.ClosedReadsBack | src/creditlens/application/qa_service.py:447-484 | A closed run reads back as the type it was closed with iff that type is stable, else as an integrity failure |
| QARecords.EveryFailureReadsBack | src/creditlens/application/qa_service.py:421-484 | However an execution stops and whatever exception closes it: replay if it completed, else that exception's stable type, unchanged by closing again |
| QAHash.HashTellsApart | src/creditlens/application/qa_service.py:554-616 | Two requests have the same hash iff case, question, depth, date and cutoff instant agree and all settings agree up to empty model names, under the same hash version; then everything a replay compares agrees |
| QARecords.OnlyTheSameRequestIsLetThrough | src/creditlens/application/qa_service.py:421-525 | A request is let through to a run iff it asks the same under the same settings and the run either still has the version mark it was created with or was completed by the previous version of the service; a run that lost its mark is a conflict |
| QARecords.ReservedExactly | src/creditlens/application/qa_service.py:421-494 | On good rows a request that finds a run is told a conflict unless the run was made from it, that there is no snapshot, that it completed, the type it was closed with if that is a stable one, or that it is at work |
| QARequests.ExecutedAtMostOnce | src/creditlens/application/qa_service.py:309-419 | In every interleaving of requests each key has one run, executed at most once, by one request at a time, with good rows |
| QARequests.SettledForever | src/creditlens/application/qa_service.py:747-753 | A run never disappears or changes identity; once completed or failed its rows are final |
| QARequests.FailureIsReadBackByAll | src/creditlens/application/qa_service.py:281-307 | However a run goes on after its execution threw, its rows read back as the stable type of that exception |
| QARequests.FailureIsTold | src/creditlens/application/qa_service.py:281-307 | When an execution throws or is cancelled its request is told the recorded type, and after any further moves every later request with the same key is told that type if it has the same hash, else a conflict |
| QARequests.AnswerIsTold | src/creditlens/application/qa_service.py:444-446 | Once a run is COMPLETED every later request with its key is told to replay it if it has the same hash, else a conflict |
| QARequests.AskingIsAnswered | src/creditlens/application/qa_service.py:421-494 | A request that finds a run, or loses the race to insert one, is at once told: a conflict on another hash, the replay of a completed run, the recorded type of a failed one, or to wait; nothing else changes |
| QARequests.ToldForever | src/creditlens/application/qa_service.py:281-307 | What a request has been told never changes |
| QARequests.FinishingTells | src/creditlens/application/qa_service.py:926-941 | A request is told that it was answered iff all writes of an answering execution are made, and the run then has exactly those rows |
| QAReplay.CanonicalIsIdempotent | src/creditlens/application/qa_service.py:1581-1586 | Canonicalising a query spec twice is canonicalising it once |
| QAReplay.CanonicalExactly | src/creditlens/application/qa_service.py:1581-1586 | An empty spec stays empty, one that lacks a required field is refused, and else every known field keeps what is given or gets its default, and nothing else gets in |
| QAReplay.RoundTrip | src/creditlens/application/qa_service.py:618-732 | A stored answer replays iff it satisfies its validator, has a known mode and the settings that shaped it hold; the replayed response is the live one |
| QAReplay.ResponseSaysTheAnswer | src/creditlens/application/qa_service.py:1482-1578 | Each field of a response, on the answer and its run; one view per claim, in order, whose citations are the attached evidence of its supporting ids, one each, in order, and whose opposing citations are those of its opposing ids |
| QAReplay.ReplayIsExact | src/creditlens/application/qa_service.py:618-732 | With the hash column untouched, only the very record that was stored replays, equal in every column, if it is valid, of a known mode and its run has the manifest the replaying settings would write; the response is then the live one |
| QAReplay.AnsweredRows | src/creditlens/application/qa_service.py:904-932 | An execution that answers commits COMPLETED with that answer and all its invocations |
| QAReplay.AskingAgainAgrees | src/creditlens/application/qa_service.py:943-975 | After any answering execution a later request gets the live response as a replay iff it asks the same under the same settings, and a conflict otherwise |
| QAService.GroundedRun.Transition | src/creditlens/application/qa_service.py:1262-1268 | Refuses moves outside the table, else makes the move |
| QAService.GroundedRun.AppendModelInvocations | src/creditlens/application/qa_service.py:1182-1190 | The loop enters exactly the trace ids not yet listed |
| QAService.GroundedRun.GenerateWithRepairs | src/creditlens/application/qa_service.py:1143-1179 | The retry loop terminates with the writes, result and call count of the plan |
| QAService.GroundedRun.AuditWithRepairs | src/creditlens/application/qa_service.py:829-893 | The audit loop terminates with the writes, result and both counts of the plan |
| QAService.GroundedRun.FinishAnswer | src/creditlens/application/qa_service.py:895-932 | Downgrade, provenance check, storage and completion as planned |
| QAService.GroundedRun.Execute | src/creditlens/application/qa_service.py:734-941 | Claims only a RECEIVED run, then makes exactly the writes of the plan, with its end and counts |
| QAService.GroundedRun.CloseFailed | src/creditlens/application/qa_service.py:1192-1226 | Closes as the closing function says and commits it |
| Contracts.CheckClaim | src/creditlens/agents/contracts.py:265-326 | Reports exactly the violations that are due for the claim |
| Contracts.ContractIsNoCodeDue | src/creditlens/agents/contracts.py:263-326 | A claim meets the contract iff no violation code is due |
| Contracts.ValidateArtifactContract | src/creditlens/agents/contracts.py:255-326 | Passes iff every claim meets the contract; blames exactly the ids of claims that do not |
| Contracts.StripTakesBlanks | src/creditlens/agents/grounded_qa.py:485-489 | Stripping takes away the blanks at both ends of a text and nothing else |
| EvidenceAuditor.CalculationCodes | src/creditlens/agents/auditor.py:195-233 | No code iff the cited calculation exists, matches and replays |
| EvidenceAuditor.FactCodes | src/creditlens/agents/auditor.py:236-306 | No code iff the fact belongs to tenant, case and borrower, was available by the cutoff, is not rejected and is frozen |
| EvidenceAuditor.SectionCodes | src/creditlens/agents/auditor.py:357-387 | No code iff text, tenant, ids and page agree with the stored section |
| EvidenceAuditor.VersionCodes | src/creditlens/agents/auditor.py:389-438 | No code iff the version is of tenant and case, in force and available by the cutoff |
| EvidenceAuditor.ParseRunCodes | src/creditlens/agents/auditor.py:440-475 | No code iff the parse run is this version's, not revoked and frozen |
| EvidenceAuditor.DocumentCodes | src/creditlens/agents/auditor.py:333-475 | No code iff the locator is complete and section, version and parse run agree |
| EvidenceAuditor.EvidenceCodes | src/creditlens/agents/auditor.py:194-475 | No code iff the full check for the evidence type passes; policy rules are not looked up |
| EvidenceFaults.CalculationFaults | src/creditlens/agents/auditor.py:195-233 | A cited calculation that passes, then is not named, not there, or differs in source, hash or replay, is recorded as just that |
| EvidenceFaults.FactRowFaults | src/creditlens/agents/auditor.py:236-306 | A fact that passes, with one column of its row changed, gets exactly the code of that column; a fact of no case stays good |
| EvidenceFaults.FactReferenceFaults | src/creditlens/agents/auditor.py:236-306 | A fact that passes, then is not there, not named, not frozen or without a snapshot, gets exactly the code of that |
| EvidenceFaults.SectionFaults | src/creditlens/agents/auditor.py:357-387 | A citation that agrees with its section, with one column changed, gets exactly the code of that column |
| EvidenceFaults.VersionFaults | src/creditlens/agents/auditor.py:389-438 | A citation whose version agrees, with one column of the version or its binding changed, gets exactly the code of that; validity starts on its first day and ends before its last |
| EvidenceFaults.ParseRunFaults | src/creditlens/agents/auditor.py:440-475 | A citation whose parse run agrees, with one column of the run or the snapshot changed, gets exactly the code of that |
| ClaimAudit.Verify | src/creditlens/agents/auditor.py:120-501 | The auditor's loops over its mutable result compute the specified findings |
| ClaimAudit.AuditResult.RuleOnArtifact | src/creditlens/agents/auditor.py:169-499 | Files every claim of an artifact by the first ground that applies |
| ClaimAudit.AuditResult.InspectEvidence | src/creditlens/agents/auditor.py:182-475 | Collects exactly the evidence that fails its check and adds exactly the codes found, per id |
| ClaimAudit.ClaimsAreConserved | src/creditlens/agents/auditor.py:131-501 | Every claim not skipped is filed once, counted with multiplicity; nothing is dropped or invented |
| ClaimAudit.VerifyPartitions | src/creditlens/agents/auditor.py:131-501 | With distinct ids the three lists are duplicate-free, disjoint and cover every claim not skipped |
| ClaimAudit.FiledAlone | src/creditlens/agents/auditor.py:477-499 | With distinct ids a claim stands where its own ruling says, with just that code |
| ClaimAudit.GroundsInOrder | src/creditlens/agents/auditor.py:477-499 | The ground a claim is ruled on: its contract, then supporting evidence that fails, then opposing evidence that fails, then a calculation that does not replay, then its conflict shape |
| ClaimAudit.FailedArtifacts | src/creditlens/agents/auditor.py:149-167 | On a valid case a FAILED grounded answer or one of the policy or financial analyst is rejected as a whole and blocks; every other FAILED artifact is passed over |
| ClaimAudit.AcceptedExactlyWhenAcceptable | src/creditlens/agents/auditor.py:169-499 | A claim is accepted iff case, artifact, contract, calculations and every cited evidence object are sound and it is not conflict-shaped |
| AnswerAudit.RejectClaim | src/creditlens/agents/auditor.py:573-585 | Moves a claim from wherever it is to rejected, once, with the code |
| AnswerAudit.FlagClaimForReview | src/creditlens/agents/auditor.py:587-597 | Moves a claim that is not rejected to review, once |
| AnswerAudit.AuditAllClaims | src/creditlens/agents/auditor.py:607-677 | The claim loop computes the specified movements |
| AnswerAudit.VerifyGroundedAnswer | src/creditlens/agents/auditor.py:503-734 | The answer gate on the mutable result computes the specified findings |
| AnswerAudit.AuditPartitionsClaims | src/creditlens/agents/auditor.py:567-677 | Past the status matrix, with distinct ids, the lists stay a partition of the claims, which only move from accepted to review to rejected |
| AnswerAudit.AuditClaimsSettle | src/creditlens/agents/auditor.py:607-677 | What the loop does to one claim depends on that claim alone |
| GroundedQA.EvidenceRefs | src/creditlens/agents/grounded_qa.py:302-307 | First references in order, one per evidence id |
| GroundedQA.RefsAreFirst | src/creditlens/agents/grounded_qa.py:301-307 | Each reference carries the id, hash, version, section, parse run and page of the first section with its evidence id, and they come in the order of first occurrence |
| GroundedQA.DraftsRefusedExactly | src/creditlens/agents/grounded_qa.py:415-463 | Which drafts are refused, for which first reason: malformed, too many claims, an id no reference has, the language of a credit decision, or nothing said |
| GroundedQA.ForecastIsExact | src/creditlens/agents/contracts.py:188-203 | The draft validator forecasts ABSTAINED exactly for the drafts that become it, so a refusal code is neither dropped nor attached elsewhere |
| GroundedQA.MaterializedIsValid | src/creditlens/agents/grounded_qa.py:431-526 | Every materialized answer satisfies its own validator |
| AnswerText.AnswerIsLaidOut | src/creditlens/agents/grounded_qa.py:485-489 | The text of an ANSWERED draft holds each of its stripped statements, in draft order, the first at the start, each next a blank after the one before, the last to the end |
| AnswerText.DraftIsTakenOver | src/creditlens/agents/grounded_qa.py:449-526 | Missing information, conflicts and provenance are taken over; an abstention gives the reason of the draft or the fitting one of two fixed ones, and its refusal code or unspecified |
| AnswerText.ClaimsAreTakenOver | src/creditlens/agents/grounded_qa.py:498-526 | Each claim is the draft claim under a fresh id, its statement stripped, its evidence ids each once |
| AnswerText.EvidenceIsTakenOver | src/creditlens/agents/grounded_qa.py:498-526 | An answer carries exactly the references its draft cites, in the order of the references; an abstention carries neither references nor claims |
| AnswerAgreement.AuditAgreesWithMaterializer | src/creditlens/agents/grounded_qa.py:431-526 | The auditor re-derives the materializer's status or the permitted downgrade; with no claim rejected it passes iff the answer is not ANSWERED with a conflict-shaped and no flagged claim; it asks for the downgrade exactly where statuses differ |
| AuditSoundness.AuditPassesExactly | src/creditlens/agents/auditor.py:503-734 | On a valid case the audit of a materialized draft passes iff the draft abstains or each of its claims is sound (date, wording, backed figures, passing evidence, numbers found), except for drafts without reservation that have a conflict-category claim and none flagged |
| AuditSoundness.RejectedIfNotClear | src/creditlens/agents/auditor.py:607-635 | With distinct ids the gate rejects exactly the claims that break the contract, cite evidence that fails or is not packed, cite a calculation that does not replay, or state a number or date whose extracted key no text cited in support has |
| AnswerAudit.RejectMissingNumbers | src/creditlens/agents/auditor.py:622-635 | The loop over the extracted spans rejects the claim iff some key extracted from its statement is in none of the texts it cites in support |
| AuditSoundness.PassedIsTrustworthy | src/creditlens/agents/auditor.py:567-734 | An answer of any origin that passes has a valid case, distinct claims that are all clear, calculations that replay, and exactly its cited evidence, all of it packed |
| AnswerText.PassedTextIsLaidOut | src/creditlens/agents/auditor.py:704-722 | An answer of any origin that passes as ANSWERED says, up to blanks at its ends, exactly its supported statements in order, a blank apart |
| AnswerAgreement.ConflictCategoryIsRefused | src/creditlens/agents/auditor.py:492-498 | A concrete ANSWERED draft with one supported DATA_CONFLICT claim is refused by the gate |
| AnswerAgreement.DowngradeIsFinal | src/creditlens/application/qa_service.py:1455-1479 | A downgraded answer is valid, re-audits clean with the same lists and is not downgraded again |
| AnswerAgreement.DowngradedExactly | src/creditlens/application/qa_service.py:1455-1479 | A passing answer is downgraded iff the audit derives another state than its own; the downgrade changes the state and removes the text, and keeps claims, evidence, gaps, conflicts and provenance |
| AnswerAgreement.NormalizedExactly | src/creditlens/agents/auditor.py:679-712 | With distinct claim ids the auditor asks for the downgrade iff it passes an ANSWERED answer, derives NEEDS_REVIEW, and all that is recorded against the claims under review is polarity, threshold or coverage, and something is |
| CaseSnapshot.FreezeSnapshot | src/creditlens/application/snapshot_service.py:48-159 | Refuses exactly a missing case or one no bound version of which has an active parse run, else freezes the selected facts and exactly the runs that are the active run of a version bound to the case |
| CaseSnapshot.FrozenFactsAreTheAuditableOnes | src/creditlens/application/snapshot_service.py:84-99 | The freeze query admits exactly the facts that pass the auditor's row checks and that no fact supersedes |
| CaseSnapshot.FrozenFactPassesAudit | src/creditlens/agents/auditor.py:236-306 | An admitted fact passes the full fact check at any later time while its row and the case row are unchanged |
| Decimals.CanonicalKeepsValue | src/creditlens/agents/auditor.py:846-854 | The canonical text is a numeral of the same value |
| Decimals.CanonicalIsIdempotent | src/creditlens/agents/auditor.py:846-854 | A canonical text is its own canonical text |
| Decimals.CanonicalDecidesEquality | src/creditlens/agents/auditor.py:846-854 | Two numerals get the same text iff they denote the same value |
| ChineseNumerals.CanonicalChineseNumber | src/creditlens/agents/auditor.py:863-899 | Accepts exactly the texts of the grammar and returns the specified reading |
| ChineseNumerals.ReadWithUnits | src/creditlens/agents/auditor.py:872-888 | The automaton accepts iff units strictly decrease and only zeros precede digits, and sums every unit times its coefficient |
| ChineseNumerals.TallyIsRight | src/creditlens/agents/auditor.py:872-888 | What the automaton sums is never more than what the text denotes, a zero only marking an empty place and a last digit right after a unit counting the next smaller place; it equals it iff no unit comes right after a zero and no digit but zero ends the text right after a hundred or thousand |
| ChineseNumerals.WholeDenotes | src/creditlens/agents/auditor.py:863-895 | An accepted text without a point is read as the number it denotes iff no unit comes right after a zero and no place is left out at the end, never as more, and below 10000 if it has units |
| ChineseNumerals.FractionDenotes | src/creditlens/agents/auditor.py:895-899 | An accepted text with a point is read as what its integer part denotes plus its decimal fraction iff the integer part has no unit right after a zero and leaves out no place at its end |
| ChineseNumerals.TallyBelowTenThousand | src/creditlens/agents/auditor.py:872-888 | With units the integer part is below 10000 at any length |
| ChineseNumerals.DigitByDigitReadsBack | src/creditlens/agents/auditor.py:889-899 | Any natural number written digit by digit, with any fraction, is read back |
| ChineseNumerals.SpellingReadsBack | src/creditlens/agents/auditor.py:872-899 | Any number below 10000 spelled with units, with any fraction, is read back |
| ChineseNumerals.SpellingDenotes | src/creditlens/agents/auditor.py:872-888 | The full spelling of a number below 10000 denotes that number, has no unit right after a zero and leaves out no place |
| ChineseNumerals.ZeroTenIsLost | src/creditlens/agents/auditor.py:881-884 | A concrete text: two thousand, zero, ten denotes 2010 and is read as 2000 |
| ChineseNumerals.PlaceIsLost | src/creditlens/agents/auditor.py:875-888 | A whole family: d hundred, e denotes d*100 + e*10 and is read as d*100 + e, and likewise with a thousand |
| ChineseNumerals.OneHundredTwoIsMisread | src/creditlens/agents/auditor.py:875-888 | A concrete text: one hundred, two denotes 120 and is read as 102 |
| NumericSpans.RunPass | src/creditlens/agents/auditor.py:914-920 | Checking against everything kept so far equals checking against earlier passes, within a pass |
| NumericSpans.AnswerNumericSpans | src/creditlens/agents/auditor.py:902-1034 | Returns the selected, sorted and deduplicated spans |
| NumericSpans.SelectedShareNothing | src/creditlens/agents/auditor.py:914-1030 | No position of the text is covered by two kept matches |
| NumericSpans.SelectedExactly | src/creditlens/agents/auditor.py:960-1030 | A match is kept iff it can be read and has no position in common with any match kept from an earlier pass |
| NumericSpans.ExtractedInSourceOrder | src/creditlens/agents/auditor.py:1032-1034 | The result lists the kept spans in source order, each value once, at its first mention |
| RunTrace.CountDeliveries | apps/api/main.py:1236-1257 | The counting loop counts every invocation under exactly its heading |
| RunTrace.BuildTrace | apps/api/main.py:1189-1324 | Builds the specified trace, or nothing if there is nothing to show |
| RunTrace.HeadingIsExact | apps/api/main.py:440-546 | An invocation without outbox rows is missing, one whose record and last row belong to the run and are well-formed goes by the status of that row, any other is invalid |
| RunTrace.TraceAddsUp | apps/api/main.py:1236-1257 | The six counts sum to the number of invocations |
| RunTrace.CompleteIsExact | apps/api/main.py:1259-1295 | Delivery is COMPLETE iff something was invoked, all of it is valid and delivered and no outbox row is orphaned |
| RunTrace.AcceptanceIsExact | src/creditlens/demo_acceptance.py:470-543 | The acceptance accepts iff everything was delivered and an event exists, or, where empty is allowed, a v2 run invoked and queued nothing |
| RunTrace.PresenterIsExact | apps/demo/presenter.py:204-227 | The presenter shows the root cause read off the rows, and COMPLETE iff everything was delivered |
| Resplit.CollectGroups | scripts/resplit_frozen_dataset.py:39-43 | Groups questions by case and template, in order |
| Resplit.GroupIsLedByItsFirst | scripts/resplit_frozen_dataset.py:39-50 | A group is balanced under the case and the intent of its first question, sorts by the id of that question, and is as large as the questions sharing its case and template are many |
| Resplit.SortedInOrder | scripts/resplit_frozen_dataset.py:52-54 | The groups of a bucket are permuted into order: larger groups first, then by the id of their first question |
| Resplit.PickGroups | scripts/resplit_frozen_dataset.py:55-60 | Picks the shortest beginning of the groups it is given that reaches the target |
| Resplit.SelectInBucket | scripts/resplit_frozen_dataset.py:47-66 | Selects exactly the questions of the picked groups of a bucket; the fallback for small buckets is shown to be dead |
| Resplit.SomethingIsPicked | scripts/resplit_frozen_dataset.py:63-66 | Every bucket that has a group has something picked |
| Resplit.ResplitQuestions | scripts/resplit_frozen_dataset.py:33-69 | The written dataset is a function of the items alone, whatever the old split; every item is kept, questions of one case and template get the same split, and splitting again changes nothing |
| Resplit.TestSizeIsOnTarget | scripts/resplit_frozen_dataset.py:47-64 | Each case and intent bucket has in test at least its target, which is 60 per cent of it rounded to the nearest and at least one, and less than a largest group more |
| Ablation.ConflictIsExact | src/creditlens/agents/challenger.py:64-96 | Texts conflict iff each has a number the other lacks and neither periods nor units are apart; conflict is symmetric and irreflexive |
| Ablation.ReasonIsExact | src/creditlens/agents/challenger.py:64-96 | The reason given is the first that applies: a side without numbers, the same numbers, periods apart, units apart, else numbers that differ |
| Ablation.HitsExactly | src/creditlens/evaluation/agent_ablation_collector.py:168-176 | A label is intercepted iff its fragment stands somewhere in a violation, and labels come in their own order |
| Ablation.ExecuteCell | src/creditlens/evaluation/agent_ablation_collector.py:117-225 | The collector's loops build the specified cell and observation |
| Ablation.CellIsValid | src/creditlens/evaluation/agent_ablation.py:376-400 | Every produced cell passes the validators of sidecar and observation and the correlation check |
| Ablation.CellRecomputes | src/creditlens/evaluation/agent_ablation.py:629-753 | A produced cell passes full recomputation iff the challenger is disabled or every frozen expectation matches the conflict rule |

## Left out

- Database engine, HTTP, vector search, object store and migrations: tables are maps; the unique key of a request and the row lock of a run are the two assumptions taken from the database.
- SHA-256, HMAC, uuid5 and JSON encoding: a hash stands for the value it covers, a derived id is an id, a stored payload reads back as it was written.
- Regular expressions and Unicode normalisation: matches, numbers, periods, units and lexical facts of a statement are arbitrary inputs; digits and separators are the ASCII ones.
- Model, retrieval, packing and formula replay: their results are arbitrary inputs.
- Lexical guards on polarity, threshold direction and structural coverage: arbitrary truth values per claim.
- Violation text: audit codes are sets of values, so order and wording of messages are not modelled, nor is a claim id that equals an evidence id in the shared violation table.
- Timestamps such as completed_at, event payload details and confidence fields: nothing decides on them.
- Cancellation draining and timeouts: a cancellation is the end of an execution after any of its writes, followed by closing the run or not.
- The unique-constraint fallback of a decision insert: the row lock and the lookup under it make it unreachable.
- The check for an empty list of professional artifacts in the supervisor: a critical agent that fails has already stopped the run, so it is unreachable.
- The legacy in-process tool event sink, used only with lightweight protocol sessions.
- Evidence rows, locators, references and Markdown of a report: only which claims enter, the excluded count and the version are modelled.
- Tenant and case columns of events: they are always written from the run's own and are taken as equal to them.
- Negative settings for the number of repairs: the limit is a natural number.
- Iteration over sorted case and intent names in the split: the result does not depend on that order; the model goes by first occurrence.
- The nearest-rank percentile, the metric arithmetic of the ablation report and its file handling: easy to state, little to prove.
- The extractive fallback, prompt building and repair feedback of the QA agent: they produce candidates, which are arbitrary here.
- Retrieval candidates, channel configuration and packing in a response: a replay does not reproduce them.
- Recovery of a QA run whose process died: the service has no lease for it, so the model does not claim that every run ends.
- DigitByDigitReadsBack and CanonicalChineseNumber: numbers may have any number of digits; the interpreter's limit on converting very long digit strings, which the source answers with no number, is not modelled.
- PersistReport: the claims shown, the excluded count and the version are stated; references, locators and Markdown of the report are not.
