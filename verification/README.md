# Story-review orchestration: verified model

A Dafny model of the orchestration service that takes a user story through parallel reviews, a synthesis, a dialogue with the
product owner and a finalized review with rendered reports. The model follows the Python code branch by branch and proves what
the code keeps over whole runs. Verify with `dafny verify dfyconfig.toml`.

## What is modelled

**The session lifecycle.** `Lifecycle.dfy` is a step machine over one session's shared rows (session, story run, turns,
idempotency claims, lease), the saved final reviews and the report pins. Each database statement or transaction, and each call to
a store or an agent, is one step. Turn, finalize and abandon requests interleave freely and may crash between any two steps.
Answers of agents and stores are arbitrary. `LifecycleInvariant.dfy` finds what holds in every state, `LifecycleSteps.dfy` proves
that every step keeps it, and `LifecycleTheorems.dfy` draws the consequences for whole runs. `LifecycleReview.dfy` joins the
machine to the final validator, `LifecycleDialogue.dfy` says what the turn route records and makes the dialogue theorems speak
about the machine, `LifecycleRuns.dfy` builds runs, `LifecycleCompletion.dfy` says which sessions can still complete
and `LifecycleOvertaken.dfy` gives the one assertion that can fail. `LifecycleRoutes.dfy` writes the three routes as the sequences
of statements they are, ties them to the machine and says what they answer and leave behind when nobody disturbs them.
`Fleet.dfy` puts all sessions under the one-active-run index. The rows themselves are objects with methods: `Records.dfy` (records_store.py), `Idempotency.dfy`,
`Lease.dfy`.

**One assumption about time.** Session writes are not fenced by the lease token. The run theorems therefore assume that a request
writes only while its own lease is unexpired (`Lifecycle.Punctual`). `LifecycleFencing.dfy` shows that the assumption is needed:
from every new session there is a run, punctual up to its last event, whose last write moves a parked session to finalizing; and
it states for every write exactly which row it may meet without leaving the state graph.

**The write-once stores.** `ReportStore.dfy` lets calls for one run overlap and die after any write; `ReportPins.dfy` ties its
claims to the pins of the lifecycle machine. `ArtifactStore.dfy` folds
histories of serialized saves that may die between claim and write; `ArtifactListing.dfy` is the paged listing.

**Session creation.** `CreateSession.dfy` proves crash convergence for one idempotency key, with the artifact store inside;
`CreateSessionFlow.dfy` is the flow as a method over the rows.

**The dialogue's decision algebra.** `Facilitator.dfy` (latest-wins resolutions), `Dialogue.dfy` (what turns record, what they may
say, and when the open list agrees with the record), `FinalReview.dfy` (issue catalog and the final validator),
`CatalogTexts.dfy` (whose words the final review carries).

**Talking to the agents.** `Reconciliation.dfy` (finding a turn's reply in the event history), `Corrections.dfy` (the two
corrective loops), `Deadlines.dfy` (retry loops under a deadline), `Fence.dfy` (the severity fence over review findings).

**Listing sessions.** `Paging.dfy` (keyset pages) and `Cursor.dfy` (URL-safe base64 without padding; sections 3.2 and 5 of
RFC 4648).

## What the code does not keep

Some claims of the code's own comments and documents do not hold of the code. Each bullet names the theorem with the exact
condition and, where there is one, the instance that fails.

- finalization.py (lines 278-281) says a retry of the finalization flow converges through the stores' idempotency. Every attempt
  stamps a fresh `finalized_at`, so a key that saved a final review is refused from then on, and a report that an attempt left
  behind pins its format to that attempt's review. Condition for one attempt: `LifecycleTheorems.AttemptSucceedsIff`. Condition
  for whole runs: `LifecycleCompletion.CanCompleteIff`; a live session can still complete exactly when its lease holder can finish
  what it has begun, or else none of its requested formats is pinned and its record can still be explained. Instance:
  `LifecycleCompletion.OneCrashBlocksForever`, the death of one request after its first report.
- The same theorem gives the sessions that no final review can close with nothing pinned: ids are never forgotten, so described
  and recorded ids that outgrow the catalog (`LifecycleReview.TooMuchToExplain`), or a record that outgrew the decision state and
  is refused (`LifecycleReview.MutedRun`), block completion for good. Instance: a first synthesis with more than four hundred
  distinct ids (`LifecycleCompletion.NewSessionCanCompleteIff`); its schema allows six hundred.
- turns_flow.py (line 157) asserts that a finalizing session ends on a finalize turn. Under the lease it does; the assert can
  fail for a retry that read the session as finalizing, lost its lease, and lists the turns after the session was rolled back and
  carried on. Condition: `LifecycleTheorems.AssertsIff`. Instance: `LifecycleOvertaken.RetryCanAssert`.
- A delegated turn is checked against both facilitator outputs but stores only the second one's resolutions, so an issue settled
  earlier can stay on the open list and acceptance is then refused. Condition: `Dialogue.Restates`
  (`Dialogue.DelegatedConsistentIff`), and for the recorded turns of every run `LifecycleDialogue.ToldDialogueConsistentIff`. Instance: `FinalReview.DelegatedTurnContradicts`, a dialogue that the gate lets go on.
- Turn 1 stores neither resolutions nor issue drafts, so an issue minted there is described only if a later turn or synthesis
  describes it; accepted right away, the session is refused. Condition: `FinalReview.OpeningCoveredIff`. Instance:
  `FinalReview.OpeningMintIsUnexplained`.
- A delegated turn drops the drafts of its first output in the same way. Condition: `FinalReview.DelegatedCoveredIff`. Instance:
  `FinalReview.DelegatedMintIsUnexplained`. For whole dialogues `FinalReview.AcceptanceRefusedIff` says when acceptance is refused
  as unexplained.
- ae_client.py (line 161) says turn n's reply is recovered for turn n alone. The marker is searched in the whole message, which
  holds the product owner's own text. Condition: `Reconciliation.HeaderMatchesIff` and `Reconciliation.OneTurnAnswersIff`.
  Instance: `Reconciliation.QuotedMarkerRecoversOldReply`.
- The first post of a facilitator invocation is sent without a look at the history. If its message arrives, no reply of an
  earlier request is ever reused (`Reconciliation.DeliveredPostForgetsHistory`); if it is lost before, an earlier reply is taken
  over. Condition: `Reconciliation.LostPostRecoversIff`. Instance: the two calls of a delegated turn share a turn number, so a
  lost summary call takes over the first call's reply (`Reconciliation.LostSummaryRecoversFirstReply`).
- The re-review clamp of the fence can raise a severity. Condition: `Fence.ClampRaisesIff`. Instance: `Fence.ClampCanRaise`.
- The facilitator's reconciliation reads are not clamped by the deadline. Condition: `Deadlines.FacilitatorEndsByDeadlineIff`.
  Instance: `Deadlines.SlowReconciliationIsLate`.
- An artifact key whose writer died between claim and record takes any content afterwards. Condition:
  `ArtifactStore.FinishedSave`. Instance: `ArtifactStore.OrphanedKeyTakesOtherContent`.
- Overlapping renders of one format can answer metadata that is stored nowhere. Condition: `ReportStore.AnswerIsStoredIff`.
  Instance: `ReportStore.OvertakenClaimerAnswersUnstoredVersion`.
- `produced_artifacts` of a finalizing turn is overwritten by the stamp (records_store.py, lines 483-489), also with the synthesis
  version that turn produced; an attempt that dies after its stamp leaves later ones without that version. The effect, exactly:
  `LifecycleReview.StampForgetsVersion`.

## Model

| member | source | states |
|---|---|---|
| LifecycleSteps.StepGood | orchestration/orchestration/turns_flow.py:121-422 | Every step of every request, crash and clock tick keeps the lifecycle invariant, and completed claims, recorded turns, terminal rows and stored references are never changed |
| LifecycleTheorems.ReachableRows | orchestration/orchestration/turns_flow.py:156-189 | In every reachable state turns are numbered 1..n, the run is in lock-step with the session, a finalizing session ends on a finalize turn, the count is at most nine unless parked and never above the recorded facilitator turns |
| LifecycleTheorems.EveryStepFollowsTheGraph | orchestration/orchestration/turns_flow.py:137-186 | Between any two successive states of a run the session moves only along active-finalizing, active-parked, finalizing-active, finalizing-parked, finalizing-completed |
| LifecycleTheorems.TerminalIsForever | orchestration/orchestration/finalize_api.py:135-152 | A parked or completed session row is the same in every later state |
| LifecycleTheorems.MoverIsAnswered | orchestration/orchestration/turns_flow.py:602-617 | Whoever parks or completes the session completes its own claim in the same step, for its own body, with a response that names that state and, for a turn, the last recorded turn |
| LifecycleTheorems.CompletedClaimsAgree | orchestration/orchestration/turns_flow.py:661-708 | In every reachable state a completed turn claim has its turn record with the same number, outcome, reply and delegation, and a claim that says parked or completed matches the session |
| LifecycleTheorems.SameKeySameAnswer | orchestration/orchestration/turns_flow.py:711-720 | Two answered turn requests with one key carry the same response and the same body |
| LifecycleTheorems.SettledKeyAlwaysReplays | orchestration/orchestration/idempotency.py:51-90 | A request that repeats a settled key with the same body, however it interleaves, is answered from the stored response, or told the session is locked; it is never refused as read-only and never takes the turn again |
| LifecycleTheorems.CompletedReports | orchestration/orchestration/finalization.py:321-350 | A completed session holds exactly one report per requested format, of that format's kind, all rendered from its stored final review; every answer with reports carries these |
| LifecycleTheorems.AssertsIff | orchestration/orchestration/turns_flow.py:137-186 | In every state the invariant allows, with or without the lease, a step fails an assertion exactly when it lists the turns for a session it read as finalizing and whose last turn, by now, is no finalizing one; it then has lost its lease and the session is not finalizing |
| LifecycleTheorems.HolderNeverAsserts | orchestration/orchestration/turns_flow.py:187-235 | No step taken under an unexpired lease fails an internal assertion |
| LifecycleTheorems.NoAssertionFails | orchestration/orchestration/finalize_api.py:160-170 | In every run whose writers hold their lease there is always a turn, a completed claim always has its record, and the count never passes the park turn: those three asserts are unreachable |
| LifecycleDialogue.ConsultRetells | orchestration/orchestration/turns_flow.py:250-379 | A consultation records a turn exactly when its answer is a plain output, or a delegating output with the asked reviews, a renewed synthesis and a final output, each let through by schema and rules; the row then carries the reply, delegation, stamped resolutions and new issues of the plain or the final output, the first reply as rationale of a delegated turn, its artifacts, and the outcome: park on turn ten, else finalize exactly when that output leaves nothing open and asks nobody |
| LifecycleDialogue.ConsultFails | orchestration/orchestration/turns_flow.py:438-505 | A consultation that records nothing fails for good exactly when an agent is broken or schema or rules refuse an output or the renewed synthesis; it is a server error exactly when the stored synthesis does not parse, and retryable otherwise |
| LifecycleDialogue.ReachableDialogue | orchestration/orchestration/turns_flow.py:187-422 | In every reachable state each turn after the opening one is the record of an action (acceptance, plain or delegated) that schema and turn rules let through over the turns before it, with the outcome it calls for; a stamp at most drops a finalizing turn's version |
| LifecycleDialogue.ToldDialogueConsistentIff | orchestration/orchestration/turns_flow.py:353-379 | For such turns the open list agrees with the recorded dispositions after every turn exactly when every delegated turn speaks of what was settled before and stays open |
| LifecycleDialogue.RecordsNeverContradict | shared/review_schemas/review_schemas/facilitator.py:165-174 | So in every reachable state whose delegated turns do so, the final validator never finds a contradiction, over any synthesis versions |
| Dialogue.RecordMeaning | orchestration/orchestration/turns_flow.py:347-379 | Recording an acceptance, a plain output or a delegated turn, field by field |
| LifecycleOvertaken.RetryCanAssert | orchestration/orchestration/turns_flow.py:156-160 | From every new session some punctual run leads to a request whose next step fails the fourth assert (an acceptance and its retry stall past their leases, a finalize request rolls the session back, the dialogue goes on) |
| LifecycleTheorems.RenderingAttempt | orchestration/orchestration/finalization.py:381-441 | An undisturbed rendering sequence reaches the stamp exactly when none of the remaining formats is pinned already, else it rolls back |
| LifecycleTheorems.AttemptSucceedsIff | orchestration/orchestration/finalization.py:262-350 | An undisturbed finalization attempt reaches the stamp exactly when the final validator accepts its turns, its key saved no final review before and no requested format is pinned; otherwise it rolls back to active |
| LifecycleTheorems.AbandonedReportBlocksCompletion | orchestration/orchestration/finalization.py:278-341 | Once a requested format is pinned to a review that no live request carries, the session never completes in any later run |
| LifecycleFencing.LateWriteLeavesParked | orchestration/orchestration/lease.py:26-97 | From every new session some run, punctual up to its last event, ends with an expired holder's write taking a parked session to finalizing |
| LifecycleFencing.WriteFollowsGraphIff | orchestration/orchestration/records_store.py:292-343 | With or without the lease, a write follows the state graph exactly when the row it meets is one it tolerates |
| LifecycleReview.CompletedWasAccepted | orchestration/orchestration/finalization.py:127-181 | In every run a session completes only with turns that, as they were before the stamp, the final validator accepts |
| LifecycleReview.TooMuchToExplain | orchestration/orchestration/finalization.py:79-124 | Once the described ids and the (at most two hundred) recorded ones outgrow the catalog together, the session never completes in any later run, whatever is said in it |
| LifecycleReview.MutedRun | orchestration/orchestration/turns_flow.py:513-528 | Once the decision state has outgrown its model and the validator refuses the turns, no later run completes the session |
| LifecycleReview.AcceptedExplains | shared/review_schemas/review_schemas/facilitator.py:151-185 | Turns that the validator accepts have a catalog within its cap that describes the first two hundred recorded ids |
| LifecycleReview.VerdictOfAcceptances | orchestration/orchestration/finalization.py:127-181 | Turns that continue an earlier record with acceptances only, and end finalizing, are accepted exactly when one acceptance after that record would be |
| LifecycleReview.StampForgetsVersion | orchestration/orchestration/records_store.py:461-489 | The stamp drops exactly the synthesis version that the last finalizing turn produced from the versions later attempts list |
| LifecycleCompletion.CanCompleteIff | orchestration/orchestration/finalization.py:262-350 | In every state the invariant allows a live session can still complete by some punctual run exactly when the lease holder is past its review save with every format free or pinned to its own review, or else none of the requested formats is pinned and the record can still be explained: described and recorded ids fit one catalog while the facilitator can be called, and after that an acceptance would be accepted |
| LifecycleCompletion.UnpinnedCompletes | orchestration/orchestration/turns_flow.py:238-422 | Every live session whose record can still be explained and none of whose formats is pinned completes by some punctual run, whatever is in flight (a rollback if it is finalizing, plain turns that draft every undescribed id, a concluding turn; on the park turn a request dies after recording, and an acceptance follows) |
| LifecycleCompletion.NewSessionCanCompleteIff | orchestration/orchestration/finalization.py:79-124 | A new session can complete exactly when its first synthesis has at most four hundred distinct ids |
| LifecycleCompletion.OneCrashBlocksForever | orchestration/orchestration/finalization.py:278-281 | From every live session with a requested format that can still complete some punctual run leads to a live session that no punctual run completes (one request dies after its first report) |
| LifecycleRoutes.RunsExtend | orchestration/orchestration/turns_flow.py:77-118 | What a route does statement by statement, with nobody else acting, is a run of the step machine in which every write is under the lease |
| LifecycleRoutes.AloneNeverAsserts | orchestration/orchestration/turns_flow.py:137-235 | A request that is served alone from any state the invariant allows holds the lease until its unlock and fails no assertion |
| LifecycleRoutes.SessionService.PostTurn | orchestration/orchestration/turns_flow.py:77-118 | Served alone from any state the invariant allows, a turn request makes such a run and keeps the invariant; it is told locked exactly when the lease was not free, and a turn answer is what its completed claim and the turn record say |
| LifecycleRoutes.SessionService.PostFinalizeAlone | orchestration/orchestration/finalize_api.py:82-208 | So does a finalize request, which fails no assertion; an answer with reports means that the session is completed with just these |
| LifecycleRoutes.SessionService.AbandonAlone | orchestration/orchestration/abandon_api.py:56-126 | So does an abandon request; a park answer means that session and run are parked |
| LifecycleRoutes.SessionService.RunTurn | orchestration/orchestration/turns_flow.py:77-118 | Alone, the turn route is locked out with nothing changed exactly when the lease is not free; else it releases it, and: another body is refused and a settled key replayed with nothing changed, a session that takes no turns is left as it was and the claim forgotten, and any other request takes its turn as above, from an answer of the world |
| LifecycleRoutes.SessionService.TakeTurn | orchestration/orchestration/turns_flow.py:187-422 | A resumed, accepting or messaging turn records at most one row, under the next number: an acceptance, or exactly what the consulted world answered (a plain output, or of a delegated turn the final output with the first reply as rationale: reply, delegation, resolutions, new issues, the outcome that the count and that output call for, and an output that schema and rules let through); a message alone is counted; a turn answer tells the last turn, its resolutions and the state its outcome leads to; the turns are stamped exactly when the session is then completed; the key's claim holds the answer if it is a turn answer, else stays in progress |
| LifecycleRoutes.SessionService.PersistAndRespond | orchestration/orchestration/turns_flow.py:644-708 | The row is inserted and the count written in every case; a turn that does not finalize is always answered; an answer carries the row's number, completes the claim and leaves the session in the state its outcome says |
| LifecycleRoutes.SessionService.SettleTurn | orchestration/orchestration/turns_flow.py:661-708 | One transaction sets the count, parks session and run on the park outcome, and completes the claim |
| LifecycleRoutes.SessionService.RespondFromCanonical | orchestration/orchestration/turns_flow.py:711-720 | A replay answers with the stored response and the turn record's resolutions and changes nothing |
| LifecycleRoutes.SessionService.RunFlow3 | orchestration/orchestration/finalization.py:262-350 | An attempt from the mark on stamps the turns and completes session, run and claim exactly when the review is accepted and saved under a new key and every format is rendered from it; else it changes nothing but the session, to active on a final failure and finalizing on a retryable one |
| LifecycleRoutes.SessionService.SaveFinalReview | orchestration/orchestration/finalization.py:353-378 | A review is saved exactly when the store answers, the validator accepts it and its key and reference are new; an invalid review or a used key rolls back |
| LifecycleRoutes.SessionService.RenderFormat | orchestration/orchestration/finalization.py:381-441 | A report is taken or made exactly when the store answers and the format is free or pinned to this review; the format is pinned whenever the call was carried out; the failure is a rollback exactly when the answer was final, unusable or another review's |
| LifecycleRoutes.SessionService.CompleteSession | orchestration/orchestration/finalization.py:444-468 | One transaction completes session and run with review and reports and completes the claim |
| LifecycleRoutes.SessionService.PostFinalize | orchestration/orchestration/finalize_api.py:82-121 | A session that is not finalizing is answered by its state with nothing changed; else the route is locked out with nothing changed exactly when the lease is not free, and otherwise its answer says which state the session is in, or repeats a settled key |
| LifecycleRoutes.SessionService.AbandonSession | orchestration/orchestration/abandon_api.py:56-91 | Locked out with nothing changed exactly when the lease is not free; else, exactly: another body refused, a settled key replayed, a live session and its run parked with the claim completed, a terminal one left as it was with the claim forgotten |
| LifecycleRoutes.SessionService.CheckAndPark | orchestration/orchestration/abandon_api.py:103-126 | A live session and its run are parked and answered; a terminal one is left as it is and refused |
| Fleet.ActionKeeps | orchestration/orchestration/records_store.py:90-111 | Opening runs, creating sessions, failing them and every event inside a session keep the one-active-run index; no action revives a run, so the rollback cannot break it |
| Fleet.OneLiveSession | orchestration/orchestration/records_store.py:168-183 | At any time a user has at most one live session per story |
| Fleet.StoryIsFreeIff | orchestration/orchestration/records_store.py:346-358 | A new run for a story opens exactly when none of the user's runs for it is open or has a live session |
| Records.SessionStore.CreateStoryRunOrGet | orchestration/orchestration/records_store.py:90-111 | Inserts exactly when the id is new and no live run of that user and story exists; returns the existing row exactly for the same story and user; changes nothing otherwise; keeps the index |
| Records.SessionStore.CreateSessionOrGet | orchestration/orchestration/records_store.py:168-183 | Inserts exactly when id and run are new, else returns the run's session; one session per run |
| Records.SessionStore.UpdateSession | orchestration/orchestration/records_store.py:292-358 | Sets the given fields of one session and moves its run exactly on a terminal state |
| Records.TurnTable.CreateTurnOrGet | orchestration/orchestration/records_store.py:390-402 | Inserts in turn-number order or returns the stored turn with that number unchanged |
| Records.TurnTable.SetFinalizingTurnArtifacts | orchestration/orchestration/records_store.py:461-489 | Overwrites the artifacts of the newest finalize turn and of no other |
| Records.InsertSplices | orchestration/orchestration/records_store.py:390-402 | An insert changes nothing when its number is taken, else splices the row in at the one place that keeps the order |
| Records.StampAt | orchestration/orchestration/records_store.py:461-489 | Exactly the last turn with outcome finalize is stamped: its artifacts are replaced and its synthesis version dropped |
| Idempotency.ClaimTable.ClaimKey | orchestration/orchestration/idempotency.py:39-90 | The first caller claims; later ones get the stored response, learn the key is busy, or are refused for another body, and never change the row |
| Idempotency.ClaimTable.Release | orchestration/orchestration/idempotency.py:93-114 | Only an unfinished claim is dropped |
| Idempotency.ClaimTable.Complete | orchestration/orchestration/idempotency.py:117-140 | The response is stored on an existing claim and its fingerprint kept |
| Idempotency.CompletedStays | orchestration/orchestration/idempotency.py:104-135 | No sequence of claims, releases and repeated completions changes a completed row |
| Lease.LeaseTable.Acquire | orchestration/orchestration/lease.py:43-74 | The acquisition loop grants exactly what the sequence of rows it meets allows and then holds the row for 360 seconds |
| Lease.AcquireMeaning | orchestration/orchestration/lease.py:60-74 | A grant comes exactly at the first attempt that meets no row or an expired one, all before it having met a row that vanished; a refusal hints the least whole number of seconds that reaches the expiry of the row still there, or one second when all three vanished |
| Lease.LeaseTable.Renew | orchestration/orchestration/lease.py:77-86 | Renews for 360 seconds exactly for the row's own token |
| Lease.LeaseTable.Release | orchestration/orchestration/lease.py:89-97 | Releases exactly for the row's own token |
| Lease.HintReachesExpiry | orchestration/orchestration/lease.py:43-57 | Waiting the hint, and not a second less, reaches the expiry if nobody renews, and then the lease can be taken |
| Lease.GrantIsExclusive | orchestration/orchestration/lease.py:26-97 | A granted, unreleased token stays the row's token until its expiry, whatever the others do |
| Lease.TakeoverIsFinal | orchestration/orchestration/lease.py:77-97 | After a takeover an earlier token never holds, renews or releases again |
| Lease.LostForever | orchestration/orchestration/lease.py:77-97 | A token that is off the row never comes back |
| ReportStore.OneReportPerFormat | mcp_servers/report/report_mcp/storage.py:89-108 | However calls overlap and die, a format has one artifact id, at most one content object, the rendering of the claimed final review, and one metadata object at version 1 whose checksum is that of the stored bytes |
| ReportStore.AnswersAgree | mcp_servers/report/report_mcp/storage.py:142-169 | All answered calls for a format name one artifact and checksum, rendered from one final review, and its metadata is stored |
| ReportStore.OtherReviewNeverRendered | mcp_servers/report/report_mcp/storage.py:153-169 | Once a format is claimed for one final review, no call for another one is ever answered with a report |
| ReportStore.NeverStuck | mcp_servers/report/report_mcp/storage.py:89-108 | A call that passed its check can always go on |
| ReportStore.NextOk | mcp_servers/report/report_mcp/storage.py:142-241 | Every step of every overlapping call keeps the bucket invariant, rewrites nothing, and never fails on a precondition |
| ReportStore.RetryConverges | mcp_servers/report/report_mcp/storage.py:89-108 | From whatever a crash left, an undisturbed call answers with the stored report exactly when its reference is good and the format not pinned elsewhere, under the claimed id, created exactly when no metadata was there; it conflicts exactly in the latter case; otherwise nothing changes |
| ReportStore.CallMeaning | mcp_servers/report/report_mcp/storage.py:110-169 | An undisturbed call is refused as a mismatch exactly when it names a final review by another checksum, as a conflict exactly when it names one and the format is claimed for another, and is otherwise answered, exactly when it names one, with the stored metadata of its own rendering |
| ReportStore.RepeatReturnsSame | mcp_servers/report/report_mcp/storage.py:96-105 | Repeating an answered request changes nothing and returns the same report |
| ReportStore.AnswerMeaning | mcp_servers/report/report_mcp/storage.py:188-241 | In every run a call that scans and is answered later answers version 1 exactly when no metadata was stored as it scanned, else version 2, and what is then stored is version 1 of the same artifact and checksum |
| ReportStore.AnswerIsStoredIff | mcp_servers/report/report_mcp/storage.py:207-241 | In every run in which no other step reads the clock of a call's scan, its answer is the stored metadata exactly when none was stored as it came to write its own |
| ReportStore.OvertakenClaimerAnswersUnstoredVersion | mcp_servers/report/report_mcp/storage.py:188-241 | A claimer overtaken by a full second call answers version 2 while version 1 is stored |
| ReportPins.CallIsRenderStep | mcp_servers/report/report_mcp/storage.py:89-108 | From any bucket whose claims the machine's pins show, an undisturbed call is one rendering step of the lifecycle machine: the pins go on showing the claims, a report is a step onward under the id the store answered, and a refusal is a rollback with nothing changed |
| ReportPins.StepShows | mcp_servers/report/report_mcp/storage.py:142-169 | Every step of every overlapping or dying call pins its format or nothing |
| ReportPins.CompletedReportsAreStored | mcp_servers/report/report_mcp/storage.py:188-241 | What the store holds under a completed session's report ids is the rendering of its final review in that format, at version 1 |
| ReportStore.Store.ClaimFormat | mcp_servers/report/report_mcp/storage.py:142-169 | Claims a free format, returns the winner for the same review, conflicts for another |
| ReportStore.Store.NextVersion | mcp_servers/report/report_mcp/storage.py:188-198 | One more than the highest stored version of the format |
| ReportStore.Store.WriteReport | mcp_servers/report/report_mcp/storage.py:207-241 | Writes bytes and metadata only where absent |
| ReportStore.Store.RenderReport | mcp_servers/report/report_mcp/storage.py:89-108 | One undisturbed call does what the steps do |
| ArtifactStore.HistoryOk | mcp_servers/artifact/artifact_mcp/storage.py:117-147 | After any history of saves with crashes, keys name distinct ids, every record is owned by one key of its type, and versions of each type are exactly 1..n |
| ArtifactStore.NothingIsRewritten | mcp_servers/artifact/artifact_mcp/storage.py:226-255 | Keys keep their ids and records are never changed or reordered |
| ArtifactStore.FinishedSave | mcp_servers/artifact/artifact_mcp/storage.py:117-147 | A finishing save is refused exactly when its key holds a record with other content, else its answer is the key's stored record; created exactly when there was none, then as the next version of its type under the key's id |
| ArtifactStore.DeathLeaves | mcp_servers/artifact/artifact_mcp/storage.py:117-147 | Dying after the write loses the answer alone, dying after the claim leaves the key claimed and nothing else |
| ArtifactStore.OrphanedKeyTakesOtherContent | mcp_servers/artifact/artifact_mcp/storage.py:117-147 | A key whose writer died between claim and record takes other content |
| ArtifactStore.RetryReturnsSame | mcp_servers/artifact/artifact_mcp/storage.py:124-144 | A stored save is answered with the same reference by every later save of the same content and key |
| ArtifactStore.ArtifactService.SaveArtifact | mcp_servers/artifact/artifact_mcp/storage.py:117-147 | The save method does what the history fold says |
| ArtifactStore.ArtifactService.ClaimKey | mcp_servers/artifact/artifact_mcp/storage.py:238-255 | Claims a new key, else returns the id it names |
| ArtifactStore.ArtifactService.NextVersion | mcp_servers/artifact/artifact_mcp/storage.py:194-200 | One more than the highest version of the type |
| ArtifactListing.ListingMeaning | mcp_servers/artifact/artifact_mcp/storage.py:154-172 | A filter by type lists exactly the records of that type, a filter by perspective exactly that reviewer's reviews, each once, by type name and then version; an item is latest exactly when its version is the number of records of its type |
| ArtifactListing.ExactlyOneLatest | mcp_servers/artifact/artifact_mcp/storage.py:258-264 | Exactly one item is flagged latest for each type that the listing shows |
| ArtifactListing.PagesCoverListing | mcp_servers/artifact/artifact_mcp/storage.py:154-172 | Concatenated pages are the listing |
| ArtifactListing.SortMeaning | mcp_servers/artifact/artifact_mcp/storage.py:83-84 | The sort orders and permutes |
| ArtifactListing.LatestVersions | mcp_servers/artifact/artifact_mcp/storage.py:258-264 | Maps exactly the listed types to their highest version |
| ArtifactListing.ListArtifacts | mcp_servers/artifact/artifact_mcp/storage.py:154-172 | Returns one page of the listing and its total |
| CreateSession.StepKeeps | orchestration/orchestration/flows.py:332-512 | Every step of session creation keeps what is stored determined by the artifacts saved so far |
| CreateSession.CutKeeps | orchestration/orchestration/flows.py:201-290 | So does an attempt cut off anywhere, also inside an artifact save |
| CreateSession.RetryConverges | orchestration/orchestration/flows.py:201-290 | After any cut-off attempts the finishing one ends with the four artifacts by kind (the story, each reviewer's own report of it, the synthesis of the two), and answers exactly when the facilitator's opening output on them passes the turn rules: then with that output's reply and open issues, the opening turn and the four audit rows of who read and produced what; else session and run are parked, with no claim and no turn |
| CreateSession.RefusedIff | orchestration/orchestration/flows.py:183-255 | A finished attempt is refused for its key exactly when the key was claimed with another body or its session is parked |
| CreateSession.SameAsUncrashed | orchestration/orchestration/flows.py:332-512 | A creation that succeeded after any cut-off attempts stored and answered exactly what one undisturbed attempt with the same draws would have |
| CreateSession.CreatedReplays | orchestration/orchestration/flows.py:201-206 | Once answered, every later attempt replays the answer and changes nothing |
| CreateSessionFlow.SessionCreation.RunCreateSession | orchestration/orchestration/flows.py:183-290 | The flow as a method does what the steps do; an answer means the artifacts, audit rows, turn and claim above |
| CreateSessionFlow.SessionCreation.RunPipeline | orchestration/orchestration/flows.py:313-512 | Saves, audit rows, opening turn and answer, or the park after a terminal failure; from rows that any cut-off attempts left, an answer means that each artifact kind, audit row and the turn hold what was computed for them |
| CreateSessionFlow.SessionCreation.SaveArtifact | orchestration/orchestration/flows.py:112-140 | One save through the artifact store, with its refusal |
| CreateSessionFlow.SessionCreation.ParkFailed | orchestration/orchestration/flows.py:293-310 | Session and run parked and the claim dropped, together |
| Facilitator.LatestResolutions | shared/review_schemas/review_schemas/facilitator.py:73-87 | First-seen order of ids, each with the last word on it |
| Facilitator.LatestMeaning | shared/review_schemas/review_schemas/facilitator.py:73-87 | Unique ids in first-seen order with last-occurrence values; looking up an issue is unchanged |
| Facilitator.LatestIncremental | orchestration/orchestration/turns_flow.py:513-528 | Aggregating turn by turn equals aggregating the whole history |
| Turns.MergedIsNextState | orchestration/orchestration/turns_flow.py:425-435 | The merged state equals the state after recording the first output as a turn of its own |
| TurnRules.ValidMeaning | orchestration/orchestration/ae_turn_validation.py:44-141 | An output is let through exactly when: on turn 1 it asks nobody and settles, as resolved, only ids that some synthesis finding has as info or minor; with decisions, no open id is settled by it, and one whose last recorded word is resolved or accepted is reopened by it; and every open id comes from the synthesis, the decisions or one of its own new issues |
| TurnRules.OpeningMeaning | orchestration/orchestration/ae_turn_validation.py:58-83 | The opening check of session creation: nobody asked, and only info or minor findings settled, as resolved |
| TurnRules.NothingBigOnTurnOne | orchestration/orchestration/ae_turn_validation.py:69-83 | An id that the synthesis has only as major or blocker, or not as a finding at all, is never spoken of in a valid turn 1's resolutions |
| Dialogue.SingleConsistent | orchestration/orchestration/ae_turn_validation.py:86-119 | A validated plain turn leaves no id open that the record has settled |
| Dialogue.DelegatedConsistentIff | orchestration/orchestration/turns_flow.py:353-379 | A delegated turn does so exactly when its second output speaks of what was settled before and stays open |
| Dialogue.RestatingDraftsSuffices | orchestration/orchestration/turns_flow.py:353-379 | Restating every issue the first output drafted is enough |
| Dialogue.DialogueConsistent | orchestration/orchestration/ae_turn_validation.py:86-119 | For every dialogue of validated turns under that guard the open list never contradicts the record |
| FinalReview.AddReport | orchestration/orchestration/finalization.py:79-104 | One synthesis version's entries, in order, over the earlier ones |
| FinalReview.AddDrafts | orchestration/orchestration/finalization.py:105-124 | Minted drafts never override an entry |
| FinalReview.IssueCatalog | orchestration/orchestration/finalization.py:79-124 | The catalog loop equals the fold, and is refused above the cap |
| FinalReview.CatalogMeaning | orchestration/orchestration/finalization.py:79-124 | Exactly the described ids, each once, in first-seen order |
| CatalogTexts.SynthesisIssue | orchestration/orchestration/finalization.py:79-104 | An id that some synthesis version has is told in the words of the last such version: its last conflict of that id, else its last finding, with the severity |
| CatalogTexts.MintedIssue | orchestration/orchestration/finalization.py:105-124 | Any other id is told in the words of the first draft that a turn stores for it |
| CatalogTexts.ReviewTells | orchestration/orchestration/finalization.py:156-168 | The review names the last turn, retains the open issues of the last delegation exactly when that turn accepts, and carries the first two hundred decisions, each the last word on its issue |
| FinalReview.CatalogGrows | orchestration/orchestration/finalization.py:79-124 | More versions and more turns never lose an id |
| FinalReview.ReviewVerdict | shared/review_schemas/review_schemas/facilitator.py:151-185 | The review of a consistent record is rejected only for its size or an id the catalog does not explain |
| FinalReview.JudgeMeaning | shared/review_schemas/review_schemas/facilitator.py:151-185 | The validator's verdict in full: two of its five checks never fire on a built review, and it accepts exactly when catalog and open list fit, nothing open is settled and every id referred to is described |
| FinalReview.AcceptanceNeverContradicts | shared/review_schemas/review_schemas/facilitator.py:165-174 | For every dialogue of validated turns in which delegated turns restate, acceptance never trips the contradiction check |
| FinalReview.AcceptanceRefusedIff | shared/review_schemas/review_schemas/facilitator.py:175-185 | After every such dialogue acceptance is refused as unexplained exactly when the catalog fits and some id that is open, or among the first two hundred recorded, is described neither by a synthesis version nor by a stored draft |
| FinalReview.DescribedDialogueCovered | orchestration/orchestration/finalization.py:79-124 | A validated dialogue whose opening turn opens synthesis ids only, and whose later turns meet the conditions above, keeps the catalog complete |
| FinalReview.SingleCoveredIff | orchestration/orchestration/ae_turn_validation.py:122-141 | A validated plain turn keeps the catalog complete exactly when it resolves no id that nothing describes |
| FinalReview.DelegatedCoveredIff | orchestration/orchestration/turns_flow.py:353-379 | A validated delegated turn keeps the catalog complete exactly when everything its second output resolves, or keeps open after the first one spoke of it, is described before, by the renewed synthesis or by the second output's drafts |
| FinalReview.OpeningCoveredIff | orchestration/orchestration/flows.py:453-471 | The opening turn's open ids are described exactly when they all come from the synthesis |
| FinalReview.DelegatedTurnContradicts | orchestration/orchestration/turns_flow.py:353-379 | A dialogue that schema, turn rules and gate let through at every step, and whose acceptance the final review refuses as contradictory |
| FinalReview.OpeningMintIsUnexplained | orchestration/orchestration/flows.py:453-471 | An id minted on turn 1, validly, makes an acceptance right away fail |
| FinalReview.DelegatedMintIsUnexplained | orchestration/orchestration/turns_flow.py:353-379 | An id minted by the first output of a delegated turn and kept open by the second, let through by schema, rules and gate, makes an acceptance right away fail |
| Reconciliation.PlaceNamesOneTurn | orchestration/orchestration/ae_client.py:170-170 | One marker names one turn: turn 1 never matches turn 10 |
| Reconciliation.HeaderMatchesIff | orchestration/orchestration/ae_client.py:156-176 | The message of turn m is taken for turn n exactly when m is n or the text before or after its header contains turn n's marker |
| Reconciliation.OneTurnAnswersIff | orchestration/orchestration/ae_client.py:156-186 | A history whose last message is turn m's answers for turn n exactly when a reply follows and that message is taken for turn n |
| Reconciliation.QuotedMarkerRecoversOldReply | orchestration/orchestration/ae_messages.py:78-94 | A product owner's message in turn 8 that quotes turn 9: a turn-9 post lost before it arrives recovers turn 8's reply |
| Reconciliation.FinalModelReply | orchestration/orchestration/ae_client.py:144-153 | The loop finds the last text of the last model event that has one |
| Reconciliation.LastReplyIs | orchestration/orchestration/ae_client.py:144-153 | The reply is the last non-empty part of the range's model events |
| Reconciliation.NoReplyIff | orchestration/orchestration/ae_client.py:144-153 | There is none exactly when these have no text at all |
| Reconciliation.OwnIff | orchestration/orchestration/ae_client.py:166-171 | A user message is turn n's exactly when any of its parts has n's marker |
| Reconciliation.RecoveredTurnReply | orchestration/orchestration/ae_client.py:156-186 | The flag-carrying loop equals: the last user event is this turn's, and the reply is the last model text after it |
| Reconciliation.RecoveryAfterMessage | orchestration/orchestration/ae_client.py:441-462 | Once an attempt's message arrived, only what that attempt added counts |
| Reconciliation.RecoveryBeforeMessage | orchestration/orchestration/ae_client.py:441-462 | Before it arrived, the history answers for the last earlier message of that number |
| Reconciliation.Invoke | orchestration/orchestration/ae_client.py:464-525 | The attempt loop equals its recursive specification, posts and end |
| Reconciliation.InvokedMeaning | orchestration/orchestration/ae_client.py:464-525 | The loop ends with the first attempt that brings a reply or a terminal error, or after which a readable history has a schema-valid reply for the turn; it is exhausted exactly when none does |
| Reconciliation.NoPostAfterRecordedReply | orchestration/orchestration/ae_client.py:516-523 | With readable histories and schema-valid replies no post after the first is sent once a reply is recorded |
| Reconciliation.RecoveredWasRecorded | orchestration/orchestration/ae_client.py:441-462 | A recovered text is recorded for this turn number and schema-valid |
| Reconciliation.DeliveredPostForgetsHistory | orchestration/orchestration/ae_client.py:478-493 | Unless the first post is lost before its message arrives, the invocation sends and ends the same whatever the history held before |
| Reconciliation.LostPostRecoversIff | orchestration/orchestration/ae_client.py:441-462 | A first post lost before its message arrives recovers an earlier reply exactly when the history is readable, its last message carries this turn number and a schema-valid reply to it is there |
| Reconciliation.LostSummaryRecoversFirstReply | orchestration/orchestration/turns_flow.py:438-505 | A summary call lost before its message arrives recovers the first call's reply |
| Corrections.AeLoop | orchestration/orchestration/ae_client.py:581-629 | The loop equals its specification, sends at most two corrections and accepts only valid output |
| Corrections.LocalLoop | shared/agent_kit/agent_kit/facilitator_adapter.py:157-187 | The same for the local loop |
| Corrections.CorrectedMeaning | orchestration/orchestration/ae_client.py:581-629 | The accepted output is the first valid candidate (the first reply, a corrected or a recovered one) within the bound; exhaustion and failure exactly when no candidate is valid and when a lost or unrecovered exchange comes first |
| Corrections.LoopsAgreeIff | shared/agent_kit/agent_kit/facilitator_adapter.py:157-187 | On failure-free transport both loops agree in result and count exactly when the first reply fits the schema |
| Deadlines.Call | orchestration/orchestration/agent_clients.py:270-314 | The trace of the retry loop has exactly one account: every attempt but the last one started timed out or failed retryably or in transport, unrecovered, and the next began after its reconciliation and back-off; the last one decides: answered when it succeeded or was recovered, a call failure when terminal or retryable on the last attempt, a transport failure likewise, and out of budget exactly when the next could not start |
| Deadlines.CallsExplained | orchestration/orchestration/agent_clients.py:270-353 | From any attempt on, the specification has that account |
| Deadlines.OnlyTheCalls | orchestration/orchestration/mcp_client.py:186-256 | And no other trace has it |
| Deadlines.StartsWithinBudget | orchestration/orchestration/agent_clients.py:337-343 | No attempt starts without budget or beyond the count; each leaves the reserve when it ends |
| Deadlines.ShortCallsEndEarly | orchestration/orchestration/mcp_client.py:186-256 | Short calls, with or without the back-off guard, end before two seconds to the deadline |
| Deadlines.GuardNeverBites | orchestration/orchestration/agent_clients.py:345-353 | The agent clients' deadline guard changes nothing on short calls |
| Deadlines.GuardedEndsBy | orchestration/orchestration/agent_clients.py:270-353 | A guarded loop ends by the deadline or as much later as a reconciliation outlasts the reserve |
| Deadlines.FacilitatorEndsByDeadlineIff | orchestration/orchestration/ae_client.py:464-525 | The facilitator loop always ends in time exactly when no reconciliation can outlast the reserve |
| Deadlines.SlowReconciliationIsLate | orchestration/orchestration/ae_client.py:441-462 | A timed-out attempt at the end of its budget and a slow reconciliation end the call that much after the reserve begins |
| Fence.ApplyScopeSettlement | orchestration/orchestration/reviewer_output_fence.py:123-145 | The nested loop keeps the findings that no settling clause settles and reports the others |
| Fence.SettlementMeaning | orchestration/orchestration/reviewer_output_fence.py:123-145 | A finding is dropped exactly when it overlaps some settling clause by 0.35, and reported once, with the first such clause; the others are kept as they are, in order |
| Fence.ApplyReReviewClamp | orchestration/orchestration/reviewer_output_fence.py:148-189 | A finding is reported exactly when it overlaps the extra context by 0.20 and some previous finding by 0.35, with the first previous finding of greatest overlap; it comes out one severity below that one, or is gone exactly if that one is info; every other finding survives as it is, in order |
| Fence.OverlapMeaning | orchestration/orchestration/reviewer_output_fence.py:102-106 | The overlap of two word sets is symmetric, and its part of the smaller set is what they share |
| Fence.ApplyFence | orchestration/orchestration/reviewer_output_fence.py:192-226 | The first rule, then the second on what it kept, exactly for a re-review with some extra context; events concatenated |
| Fence.FenceIsFindingwise | orchestration/orchestration/reviewer_output_fence.py:192-226 | Each finding is treated on its own, the survivors keep their order, and each touched finding has exactly one event |
| Fence.FenceIsIdempotent | orchestration/orchestration/reviewer_output_fence.py:192-226 | Fencing a fenced report changes no finding |
| Fence.ClampRaisesIff | orchestration/orchestration/reviewer_output_fence.py:148-189 | A finding comes out above its own severity exactly when its match is more than one level above it |
| Fence.ClampCanRaise | orchestration/orchestration/reviewer_output_fence.py:148-189 | An info finding that repeats a blocker becomes major |
| Fence.NoEventNoChange | orchestration/orchestration/reviewer_output_fence.py:222-226 | Without events the findings are unchanged |
| Paging.ListSessions | orchestration/orchestration/records_store.py:222-253 | One page and whether more rows follow |
| Paging.PageMeaning | orchestration/orchestration/records_store.py:222-253 | A page is the user's newest sessions older than the cursor, by update time and then id, both descending; it says there are more exactly when it leaves one of them out |
| Paging.CursorsVisitEachSessionOnce | orchestration/orchestration/sessions_api.py:150-169 | Following the cursors visits every session of the user exactly once, by update time and then id, both descending, and nobody else's |
| Paging.NextIsRest | orchestration/orchestration/records_store.py:237-253 | The rows below a page's last key are the rows after that page |
| Cursor.EncodeDecodes | orchestration/orchestration/sessions_api.py:58-66 | Padded base64 decodes to what was encoded |
| Cursor.PaddingComesBack | orchestration/orchestration/sessions_api.py:61-66 | Stripped padding is restored exactly |
| Cursor.CursorRoundTripIff | orchestration/orchestration/sessions_api.py:58-74 | A cursor decodes to its row exactly when both parts are there and the timestamp has no bar |
| Cursor.CursorsDiffer | orchestration/orchestration/sessions_api.py:58-74 | No two rows share a cursor |

## Left out

- HTTP routing, request models, signed URLs, logging, health checks, configuration and the web interface: plumbing around the flows.
- The models behind the agents, PDF and Markdown layout, SHA-256, UUID derivation and JSON: arbitrary answers or pure functions.
- Ownership checks (another user's session reads as absent): every request of a cell belongs to the session's owner.
- `processing_stage`, `touch_session` and the agent-run audit rows of turns: written by the routes, never read by a decision.
- Reviewer and re-synthesis calls inside a delegated turn: one answer of the outside world in the lifecycle machine, so a crash between two of their saves is not a separate step there.
- Fetching the synthesis versions for the final review: part of the review save, whose failures are its answers; a version that two turns list is read at both places, which changes no described id, only which text an id carries.
- The two statements of `set_finalizing_turn_artifacts` are one step of the machine, and the lease's re-read of a vanished row is modelled in `Lease.dfy` only; lease tokens are the request ids.
- The HTTP retry hint, which replaces the lease's own: hints are stated for the lease.
- Another key's run that holds the story while session creation starts: the attempt ends there, which is one of the cuts; `Fleet.dfy` has the index itself.
- Lifecycle.Punctual: the run theorems assume it, because session writes are not fenced by the lease token.
- CreateSession.SameAsUncrashed: leaves out timestamps and correlation ids of rows, because they are drawn anew by every attempt; artifact ids and creation times are included.
- Reconciliation.HeaderMatchesIff: digits are the ASCII digits, because the rendered header uses no others; the text after the header starts with none.
- Facilitator.ValidOutput: texts are stripped of ASCII blanks only, and fields that no decision reads (readiness, categories, suggestions, references) are not there.
- A terminal agent failure during session creation, which parks the session as an invalid opening turn does: the agents of `CreateSession.World` always answer.
- A reply of status 200 that is not JSON, which leaves the facilitator's attempt loop as an unhandled error: `Reconciliation.Invoke` has no such answer.
- Fence.ApplyFence: splitting a text into clauses and words is any function, because only set overlaps matter; overlaps are exact reals instead of floats.
- Cursor.CursorRoundTripIff: parsing the timestamp text is not modelled, because the cursor carries it unchanged; the lenient skipping of foreign characters by the library decoder is not modelled either.
- ArtifactStore.HistoryOk: saves of one run are serialized, as the store's own documentation requires; two racing writers could pick one version.
- Dataset export, story numbering, caller allowlists, ingress authentication and context compaction: finite tables and simple membership.
