# pgmask, verified

pgmask is a masking proxy for PostgreSQL. It sits between a client and the
server, learns from each RowDescription which columns a result carries, and
rewrites the rows under a plan with one mask per field. This project is a Dafny
model of the parts where being wrong shows somebody else's data:

* **The extended-query plan state** (`PlanStates`, `PlanStateModel` and the
  `Plan*` modules). The protocol lets a client pipeline Parse, Bind, Describe,
  Execute, Close, Query and Sync without waiting, while answers, errors,
  suspensions and catalog refreshes arrive interleaved. The state decides which
  SQL text and which plan belong to the result arriving now. `PlanStates` is the
  mutable class, loops and all. Its ghost trace lists the operations performed;
  each of the twenty operations appends itself to the trace and keeps the object
  in the state `PlanStateModel` says that run leads to, so the theorems about
  every run are about the object. A ghost history (`PlanHistory`) records which
  Bind each Execute ran against, when each Describe was sent and answered, what
  its name stood for at both times, and how many refreshes happened.
* **The pipeline** (`Pipeline` and the `Pipeline*` modules): a reference server with
  one queue of outstanding messages answered in order, which the four pending queues
  refine; whose text an answer is judged by (`PipelineTexts`) and whose plan a Query's
  rows go out under (`PipelineRows`); after an error, exactly when the queues
  (`PipelineErrors`) and the texts (`PipelineNames`) are those of a server on which the
  lost messages had no effect; and after a refusal by the proxy itself
  (`PipelineRefusals`), those of a server that carried out what was swallowed.
* **The reload protocol** (`Reload`, `ReloadProgress`): reloads with their two
  generation bumps, catalog refreshes and any number of sessions, interleaved step by
  step; what may be reused, and what a reload that succeeds leaves installed.
* **Planning** (`Planning`, `Masks`, `Roles`): from field descriptions to a plan
  or a refusal.
* **The catalog** (`OpaqueViews`, `Coverage`): the fixpoint over view
  definitions, and the keyed coverage diff against the scan it replaced.
* **Masks and checksums** (`Buckets`, `Uuid`, `Dates`, `Iban`, `Luhn`).

`dafny verify dfyconfig.toml` checks everything.

## Where the code and its documentation part

* A changed text is documented to invalidate every plan derived from the old one,
  and a Bind to leave its portal's old plan behind. Both hold for plans already
  answered, not for a Describe still pending: its answer is filed under the name as
  it stands by then. `PlanOvertaking` proves when a plan is the Execute's own, and
  what a client must not do; `PlanLimits` has the runs.
* A portal bound before its statement got a new text has no generation on record,
  and the statement's next plan is filed under it all the same: a patient client's
  Execute of it never has its own text's plan if it has a statement's
  (`PlanOvertaking.PatientCounterlessPlansAreNeverItsOwn`, a run in `PlanLimits`).
* A Describe is documented to be judged only by its own statement's text. For a portal
  that is the text its statement has when the Describe is sent, which need not be the
  one bound: `PipelineTexts` says exactly when it is, `PlanLimits` has a run. And it
  keeps the text of a Parse that is lost with an error: `PipelineNames` says exactly
  when the Describes of later exchanges are judged by what the server describes.
* An error is meant for the exchange that failed. An Execute that fails with
  nothing else of its exchange pending is charged to a later exchange that has;
  `PipelineErrors` says exactly when.
* An error is meant to leave alone what the server will still answer. A failed Query
  does not make the server skip to Sync, but the code drops everything pipelined
  behind it in the same epoch; `PipelineErrors.ErrorRecoversInStepIff` says exactly
  when the queues stay in step, for every message that can fail.
* The rows of a Query are documented to be governed by the plan its own RowDescription
  armed. The plan sits in a cell that an Execute sent while the rows still stream
  overwrites with its portal's: `PipelineRows.QueryRowsHaveTheirOwnPlanIff`, and a run
  in `PlanLimits`.
* A refusal is meant to drop the refused exchange. Rows refused while only a later
  exchange awaits a description drop that one instead; and behind a refused Query the
  server goes on answering what the code drops. `PipelineRefusals` says exactly when.
* "Most restrictive wins" is documented so that adding a role cannot widen
  access. A first matching role replaces the column's default even when the
  default withholds more; `Roles.MoreRolesNeverRevealMore` says exactly when.
* A bucket boundary outside int2 or int4 is refused in binary and served in text:
  the text arm never asks how wide the column is.
  `Buckets.TextAgreesWithBinaryIffTheBoundaryFits` says exactly when they agree.

## Model

| member | source | states |
|---|---|---|
| `PlanOrder.QueuesStayInOrder` | crates/proxy/src/plan_state.rs:290-826 | over every run, each queue is non-decreasing in epoch and bounded by the Sync count (also after a resume re-stamps the head), result orders are distinct, increasing and already handed out, `suspended` means at most one queued Execute, and the epoch a refusal suppresses is never one to come |
| `PlanSuspension.SuspendedExactlySince` | crates/proxy/src/plan_state.rs:493-500 | over every run, a result is suspended exactly since a PortalSuspended with at most one Execute queued, until an Execute, the end of a result other than a simple query's, an error, a refusal or an Idle ReadyForQuery |
| `PlanSuspension.PausedResultIsNotInherited` | crates/proxy/src/plan_state.rs:432-500 | after any run with one Execute queued, a PortalSuspended and whatever does not end the pause: an Execute that is no resume is the sole owner and its rows have its own portal's plan; a resume carries on the paused Execute with the order and plan it had |
| `PlanSuspension.SuspendedResultHasOneOwner` | crates/proxy/src/plan_state.rs:432-528 | the same in every reachable suspended state; and an Idle ReadyForQuery leaves no owner and nothing to stream |
| `PlanSuspension.PauseWithoutOwnerServesNothing` | crates/proxy/src/plan_state.rs:613-620 | after a PortalSuspended with no Execute queued, no row has a plan until the pause ends |
| `PlanSuspension.PipelinedResumeSharesItsOwner` | crates/proxy/src/plan_state.rs:454-456 | in every run, a second Execute of the same binding leaves the queue and the plan of the rows due next as they were |
| `PlanOrder.FreeFromIsFree` | crates/proxy/src/plan_state.rs:550-567 | the bump search ends at the first number no queued Execute of the name holds |
| `PlanHistory.HistoryIsFaithful` | crates/proxy/src/plan_state_fuzz.rs:30-59 | the ghost record of every run is true: each recorded Bind, Execute, reset and answer is a step of that run, and the recorded last Bind is the last |
| `PlanFormats.StampedExactly` | crates/proxy/src/plan_state.rs:680-693 | a stamped plan is, and is the only plan that is, field by field the described one in mask, projection, type and leniency, in the format the Bind's codes give the column: text for none, the one code, or its own; the described format if the codes could not be read |
| `PlanRuns.MatchingGenerationIsFresh` | crates/proxy/src/plan_state.rs:543-592 | in every run, a queued Execute with a generation on record that still matches its portal's counter has seen neither a Bind of the name nor a counter reset since it was issued |
| `PlanRuns.EveryPlanAnswersADescribe` | crates/proxy/src/plan_state.rs:577-592 | in every run, the plan of every queued Execute, whatever its generation, is field by field, but for the formats, the answer to a Describe of its portal or of a statement, never a simple query's plan, and that answer came after every refresh preceding the Execute |
| `PlanRuns.GenerationMeansTheTextIsUnchanged` | crates/proxy/src/plan_state.rs:322-326 | in every run, a portal has a generation on record exactly when it was bound and no re-Parse has changed its statement's text under it since |
| `PlanRuns.SuspensionHandsOver` | crates/proxy/src/plan_state.rs:493-500 | in every run, PortalSuspended with others queued hands the stream to the next Execute, whose rows go out under its own snapshot |
| `PlanRuns.DescribedTextIsTheTextAsked` | crates/proxy/src/plan_state.rs:366-381 | in every run, the text the next description is judged by is the one on record for its target when that Describe was sent; for a portal, the text its statement had by then |
| `PlanOvertaking.OwnPlanIffNotOvertaken` | crates/proxy/src/plan_state.rs:335-364 | in every run, the plan of a queued Execute with a generation on record answers a Describe of its portal, or of the statement its Bind named, field by field in that Bind's formats; and that Describe was about the Execute's own Bind, or the text its Bind saw, if and only if nothing redefined the name while the Describe was pending |
| `PlanOvertaking.CounterlessPlansAreOfALaterText` | crates/proxy/src/plan_state.rs:310-364 | in every run, an Execute without a generation on record whose plan is a statement's got it under a later text than its own Bind saw, so it is not its own unless the Describe was overtaken; a portal's plan that was not overtaken is its own if and only if no Bind of the portal came between the Execute and the answer |
| `PlanOvertaking.PatientCounterlessPlansAreNeverItsOwn` | crates/proxy/src/plan_state.rs:322-326 | in every run of a patient client, such an Execute with a statement's plan never has the plan of the text it runs |
| `PlanOvertaking.UndisturbedTextIsTheSame` | crates/proxy/src/plan_state.rs:310-333 | while no step redefines a statement and no error drops it, its text on record stays the same |
| `PlanOvertaking.PatientClientGetsItsOwnPlans` | crates/proxy/src/plan_state.rs:366-381 | in every run of a client that never binds or re-prepares a name while a Describe of it is pending, every Execute with a generation on record has a plan described for its own Bind and text |
| `PlanOvertaking.OvertakenByABind` | crates/proxy/src/plan_state.rs:996-1021 | from every reachable state with a Describe of a portal pending, a Bind of it, the answers and an Execute give the new binding the old one's plan, whatever that is |
| `PlanOvertaking.OvertakenByAParse` | crates/proxy/src/plan_state.rs:979-1025 | from every reachable state with a Describe of a statement pending, a new text for it, the answers, a Bind and an Execute give the new text the old one's plan |
| `PlanRuns.CachedPlansFollowTheLastRefresh` | crates/proxy/src/plan_state.rs:267-279 | in every run, every cached statement plan answers a Describe made after the last generation change and the last change of its text; every cached portal plan one after the last generation change and, unless it is its statement's, the last Bind |
| `PlanCaches.PlansAreCachedExactlySince` | crates/proxy/src/plan_state.rs:267-330 | over every run, a statement has a given plan on record exactly since the answer to a Describe of it brought that plan, as long as no other answer came, the generation did not move, and its text was not changed, closed or lost with an error; a re-Parse of the same text leaves it |
| `PlanCaches.DescribedPortalsAreServed` | crates/proxy/src/plan_state.rs:761-796 | in every run, a portal bound to a statement with a plan on record has one, and so has every queued Execute of its current binding, whichever of Bind, answer, BindComplete and Execute came first |
| `PlanCaches.BindCompleteSuppliesNothing` | crates/proxy/src/plan_state.rs:774-794 | in every run, a BindComplete finds every plan it could install or fill in already there; it can only activate one |
| `PlanCaches.UnconcernedPortalsAreLeftAlone` | crates/proxy/src/plan_state.rs:716-742 | through every run in which nothing concerns a portal or the statement it is bound to, its binding, formats, plan and bind counter stay |
| `PlanCaches.ClosedPortalsAreReleased` | crates/proxy/src/plan_state.rs:716-742 | after a Close of a portal or of the statement it is bound to, and through whatever does not concern it, the portal has no binding, formats or plan, an Execute of it gets none, and its bind counter is kept |
| `PlanCaches.FormatsAreTheLastBinds` | crates/proxy/src/plan_state.rs:314-326 | in every run, a bound portal has formats on record exactly while it has a generation, and they are those of its last Bind |
| `PlanCaches.GenerationIsTheLastTold` | crates/proxy/src/plan_state.rs:267-271 | the generation a session compares with is the one it was told last, so each move of it drops the caches once |
| `PlanCell.PortalIsTheLastExecuted` | crates/proxy/src/plan_state.rs:383-385 | over every run, the portal a BindComplete can activate is exactly the one executed last and not abandoned since |
| `PlanCell.CellIsTheLastWritten` | crates/proxy/src/plan_state.rs:789-794 | over every run, the active plan is what was written last: an answer's own plan, the plan an executed portal had then or got with its BindComplete, or none after a Query, an error, a refusal or the end of a paused transaction |
| `PlanCell.RowsAreSimpleExactlySince` | crates/proxy/src/plan_state.rs:979-993 | over every run, the rows due are taken for a simple query's exactly since a RowDescription answered one, until a result ends, an empty query or a Describe is answered, or an error or refusal |
| `PlanCell.TheActivePlanIsReal` | crates/proxy/src/plan_state_fuzz.rs:910-933 | in every run, an active plan is field by field one that an answer described, but for the formats |
| `PlanRuns.StreamingPlanIsTheSnapshot` | crates/proxy/src/plan_state.rs:609-637 | in every reachable state where an Execute owns the stream, the plan for the next row is that Execute's own snapshot; the fallback to the cache never differs |
| `PlanRuns.RunIsTraced` | crates/proxy/src/plan_state.rs:577-592 | the whole-run invariant behind the rows on plans, for every sequence of operations and at every generation |
| `PlanStability.SnapshotIsStable` | crates/proxy/src/plan_state.rs:577-592 | whatever operations follow, an Execute still queued keeps its portal, generation and the plan it had |
| `PlanRecovery.ErrorKeepsTheLaterExchanges` | crates/proxy/src/plan_state.rs:830-936 | from every reachable state: after an error nothing at or below the charged epoch remains in the three queues, no Execute of it (nor an older one if suspended) remains, everything later survives in order, and a name loses text, binding and plan exactly when a mutation of it failed and no later one is pending |
| `PlanRecovery.FailedEpochIsOldest` | crates/proxy/src/plan_state.rs:851-864 | the epoch an error is charged to is the oldest among the pending descriptions, Parses and Binds |
| `PlanLimits.BindOvertakesDescribe` | crates/proxy/src/plan_state.rs:335-364 | eleven messages exchanged with a server that refuses none and answers in order, after which the unnamed portal's rows of one statement go out under the plan described for another |
| `PlanLimits.ParseOvertakesDescribe` | crates/proxy/src/plan_state.rs:310-333 | nine such messages, after which the rows of the unnamed statement's second text go out under the plan of its first |
| `PlanLimits.CounterlessExecuteTakesTheNewTextsPlan` | crates/proxy/src/plan_state.rs:322-326 | nine more, nothing overtaken: an Execute without a generation on record sends the rows of the text its Bind saw under the plan of the text its statement got since |
| `PlanLimits.PortalIsJudgedByAnotherText` | crates/proxy/src/plan_state.rs:366-381 | seven such messages, after which the RowDescription owed next is of a portal's bound text and would be judged by its statement's later one |
| `PlanLimits.AQuerysRowsTakeThePortalsPlan` | crates/proxy/src/plan_state.rs:383-385 | nine such messages, after which the rest of a Query's rows, begun under the plan described for them, go out under the plan of a portal executed meanwhile |
| `Pipeline.QueuesAreProjections` | crates/proxy/src/plan_state.rs:652-674 | over every legal interleaving with a server answering one FIFO in order, the four queues are the projections of that FIFO, with names meaning what the client's messages say and each Describe carrying the text on record when it was sent |
| `Pipeline.AnswersMeetTheirOwnEntry` | crates/proxy/src/plan_state.rs:961-1044 | so the entry each answer consumes is that of the message it answers, a Query is judged by its own text and a Describe by the one on record when it was sent, and the rows' owner is the Execute that produced them |
| `PipelineTexts.AnswersAreJudgedByTheirOwnTextIff` | crates/proxy/src/plan_state.rs:950-967 | over every legal run, the text the next answer to a Describe is judged by is the text the server describes if and only if, when the Describe was sent, the text on record for its target was the one bound; always so for a statement, and for a portal with a generation on record |
| `Pipeline.CommandCompleteRefines` | crates/proxy/src/plan_state.rs:652-674 | a CommandComplete retires exactly the Query or Execute at the head of the server's queue |
| `PipelineRows.RowDescriptionArms` | crates/proxy/src/plan_state.rs:979-1025 | over every legal run, once a Query's RowDescription has been planned, the plan for the next row is that plan |
| `PipelineRows.QueryRowsHaveTheirOwnPlanIff` | crates/proxy/src/plan_state.rs:609-612 | over every legal run, from then to its CommandComplete the Query's rows have that plan if and only if no Execute or Query was sent since, or the last of them is an Execute of a portal with that very plan; otherwise they have that portal's plan, or none |
| `PipelineRefusals.RefusedDescriptionsAreOfTheirExchange` | crates/proxy/src/plan_state.rs:799-807 | over every legal run, when the server's next answer is to a Describe, or to a Query whose rows have not begun, a refusal suppresses the epoch of that very message |
| `PipelineRefusals.RefusalIsOfItsExchangeIff` | crates/proxy/src/plan_state.rs:799-807 | for whatever answer is refused: that is the epoch of the message being answered if and only if a description of its exchange is pending, or none of any is and what last armed a plan was of that exchange |
| `PipelineRefusals.RefusedQueryStreamsNothing` | crates/proxy/src/plan_state.rs:285-288 | once a Query's rows are refused they have no plan, until an Execute or a Query is sent |
| `PipelineRefusals.SuppressedInStepIff` | crates/proxy/src/plan_state.rs:813-826 | over every legal run, after a refusal charged to its own exchange and whatever is sent while that is swallowed, queues, names and counters are those of a server that has answered everything up to its ReadyForQuery, if and only if nothing of that exchange is queued behind it |
| `PipelineRefusals.RefusedRowsAreChargedToTheNextExchange` | crates/proxy/src/plan_state.rs:799-807 | a legal run in which refused rows suppress the epoch of the exchange after theirs |
| `PipelineRefusals.ARefusedQueryTakesItsExchangeWithIt` | crates/proxy/src/plan_state.rs:813-826 | a legal run in which a refused Query makes the proxy forget messages the server will still answer |
| `PipelineErrors.ErrorIsChargedToItsExchangeIff` | crates/proxy/src/plan_state.rs:851-864 | over every legal run, an error is charged to the exchange of the message that failed if and only if a description, Parse or Bind of that exchange is pending, or none of any is and that exchange has an Execute pending |
| `PipelineErrors.ErrorRecoversInStepIff` | crates/proxy/src/plan_state.rs:830-936 | over every legal run and whatever message fails, the four queues are afterwards the projections of what the server still owes if and only if: after a Query, nothing of its exchange is queued behind it, nor anything once its rows had begun; after any other message, the error is charged to its own exchange or nothing is queued |
| `PipelineErrors.AHastyErrorIsChargedToTheNextExchange` | crates/proxy/src/plan_state.rs:851-864 | a legal run in which an Execute's error is charged to the exchange after it, and the queues are then out of step |
| `PipelineErrors.AFailedQueryTakesItsExchangeWithIt` | crates/proxy/src/plan_state.rs:648-651 | a legal run in which a failed Query makes the proxy forget a Parse, a Bind and an Execute the server will still answer |
| `PipelineNames.LaterDescribesKeepTheirTextIff` | crates/proxy/src/plan_state.rs:875-921 | over every legal run, after an error from which the queues recover in step, a statement's Describe sent before it is still queued, and is judged by the text the server will describe if and only if a message still to be answered names the statement before it, or the messages lost leave its text as it was |
| `PipelineNames.TextsAfterAnErrorIff` | crates/proxy/src/plan_state.rs:875-895 | over every legal run, after an extended-query error charged to its own exchange, the text on record for a statement is the server's or missing, and is the server's if and only if a message still to be answered names the statement, or none lost does, or it had no text before them |
| `PipelineNames.ADescribeIsJudgedByARefusedText` | crates/proxy/src/plan_state.rs:950-967 | a legal run in which a Parse the server refuses, its name being in use, leaves the next exchange's Describe judged by the refused text |
| `PlanStates.PlanState.constructor` | crates/proxy/src/plan_state.rs:126-128 | a new object is valid with an empty trace: the state of the empty run |
| `PlanStates.PlanState.StreamingPlan` | crates/proxy/src/plan_state.rs:609-637 | the plan for the next row; for an Execute's rows, on every valid object, the owner's snapshot |
| `PlanStates.PlanState.DescribedSql` | crates/proxy/src/plan_state.rs:961-967 | on every valid object, the text on record for the target of the oldest Describe when that Describe was sent; for a portal, the text its statement had by then |
| `PlanStates.PlanState.RejectionEpoch` | crates/proxy/src/plan_state.rs:799-807 | the epoch a local refusal suppresses; on every valid object never beyond the Sync count |
| `PlanStates.PlanState.Parse` | crates/proxy/src/plan_state.rs:310-333 | the loop over stale portals, in any order: the object stays in the state of its run with this Parse appended |
| `PlanStates.PlanState.Bind` | crates/proxy/src/plan_state.rs:335-364 | the generation loop, the fill loop and the installation: the object stays in the state of its run with this Bind appended |
| `PlanStates.PlanState.Execute` | crates/proxy/src/plan_state.rs:383-466 | resume, replacement and snapshot in place: the object stays in the state of its run with this Execute appended |
| `PlanStates.PlanState.BumpBindGeneration` | crates/proxy/src/plan_state.rs:550-567 | the loop ends at the first generation no queued Execute of the name holds |
| `PlanStates.PlanState.FillPendingPlan` | crates/proxy/src/plan_state.rs:577-587 | exactly the plan-less Executes of the current binding take the plan |
| `PlanStates.PlanState.InstallForStatement` | crates/proxy/src/plan_state.rs:996-1021 | every portal of the statement takes the plan with its own formats, in any order of the map |
| `PlanStates.PlanState.FinishResultSet` | crates/proxy/src/plan_state.rs:652-674 | the older of the two heads retires: the object stays in the state of its run with this CommandComplete appended |
| `PlanStates.PlanState.Close` | crates/proxy/src/plan_state.rs:716-742 | the loop over closed portals, counters kept: the object stays in the state of its run with this Close appended |
| `PlanStates.PlanState.FinishBind` | crates/proxy/src/plan_state.rs:761-796 | both sources of a plan and the fill loop: the object stays in the state of its run with this BindComplete appended |
| `PlanStates.PlanState.DiscardFailedEpoch` | crates/proxy/src/plan_state.rs:830-936 | the loops over both mutation queues and the filters: the object stays in the state of its run with this error appended |
| `PlanStates.PlanState.FinishDescription` | crates/proxy/src/plan_state.rs:979-1025 | taking, caching and installing portal by portal: the object stays in the state of its run with this RowDescription appended |
| `Reload.CurrentPlansAgreeWithWhatIsInstalled` | crates/proxy/src/policy.rs:337-398 | for every interleaving, whenever no swap is midway, a cached plan stamped with the current generation was built from the settings, key and snapshot installed |
| `Reload.BumpsRetireEveryEarlierPlan` | crates/proxy/src/policy.rs:140-155 | after either bump of a changing reload, or an install's, no plan cached before it is current |
| `Reload.FailedReloadChangesNothing` | crates/proxy/src/policy.rs:372-382 | a reload that fails leaves settings, key and rules as found, and the snapshot unless a refresh stored one |
| `Reload.RunIsSafe` | crates/proxy/src/catalog.rs:1453-1493 | the invariant behind these, over every sequence of steps |
| `ReloadProgress.SucceededReloadIsInForce` | crates/proxy/src/policy.rs:374-398 | for every interleaving, a reload that has stored everything and ends leaves the settings, key and rules of its own configuration installed; and if the rules changed, names were resolved since it began, and the snapshot in force is that one or a later refresh's |
| `ReloadProgress.SnapshotIsTheLastStored` | crates/proxy/src/catalog.rs:1453-1493 | the snapshot in force is the one stored last, by a reload or a refresh |
| `ReloadProgress.RunInstalls` | crates/proxy/src/policy.rs:374-392 | over every run: rules, key and settings are stored in this order, each the configuration's; names are resolved exactly if the rules changed; reload and refresh never hold the catalog together |
| `ReloadProgress.ASwapInstalls` | crates/proxy/src/policy.rs:372-392 | from every idle state a reload with the same rules can run, swaps settings and key, and moves the generation twice exactly if something changed |
| `ReloadProgress.AReloadResolvesAndInstalls` | crates/proxy/src/policy.rs:374-392 | from every idle state with the catalog free, one with new rules can run, and installs settings, key, rules and the snapshot it resolved |
| `ReloadProgress.AFailedReloadLetsGo` | crates/proxy/src/policy.rs:367-382 | if the resolution fails instead, nothing is installed, both bumps are made and the catalog is free again |
| `ReloadProgress.AFailedRefreshLetsGo` | crates/proxy/src/catalog.rs:1512-1537 | a refresh that fails leaves everything as it was, and the catalog free |
| `ReloadProgress.ARefreshInstalls` | crates/proxy/src/catalog.rs:1512-1541 | so can a refresh, whatever a reload outside the catalog is doing, and only the snapshot changes |
| `ReloadProgress.AnUndisturbedPlanIsKept` | crates/proxy/src/policy.rs:140-155 | a session left alone caches the plan it builds from what is installed under the current generation, and keeps what it had cached under it |
| `Masks.SupportsByType` | crates/proxy/src/mask.rs:526-573 | the capability table read by type: exactly which masks each type carries in each format, and never more in binary than in text |
| `Masks.PseudonymFitsExactly` | crates/proxy/src/mask.rs:518-524 | a pseudonym is taken to fit exactly where its longest rendering is within the declared width |
| `Masks.ForUnclassified` | crates/proxy/src/mask.rs:479-526 | the loop picks a pseudonym keyed by the column's own name exactly where one applies and fits, the year of dates, the prefix of textual addresses, and NULL for everything else; always a mask the type can carry |
| `Roles.MasksAreOnTheirRung` | crates/proxy/src/catalog.rs:403-421 | every mask is on exactly one rung of the ladder from cleartext to NULL |
| `Roles.ForRoles` | crates/proxy/src/catalog.rs:372-400 | the loop over sorted roles finds the most restrictive held mask, ties going to the first role, whatever order the set yields |
| `Roles.MoreRolesNeverRevealMore` | crates/proxy/src/catalog.rs:367-371 | exactly when added roles cannot reveal more: a role already decided, none of the added carries a mask, or one withholds at least as much as the default |
| `Roles.AFirstRoleCanRevealMore` | crates/proxy/src/catalog.rs:372-400 | a column redacted by default, served in the clear to a principal whose one role carries no mask |
| `Planning.PlanFor` | crates/proxy/src/policy.rs:527-690 | accepted exactly when no field is refused, else the first refusal's cause; an accepted plan has one sound entry per field: supported mask, cleartext exactly for a listed reason, the roles' tightest mask, the expression's own policy, and an automatic mask that never gives NULL or leniency to a NOT NULL column |
| `Planning.PlanField` | crates/proxy/src/policy.rs:536-687 | the same for one turn of the loop |
| `Planning.PlanExpression` | crates/proxy/src/policy.rs:553-583 | a field without believed provenance passes only for its shape, its lineage or its own policy |
| `Planning.PlanOpaqueField` | crates/proxy/src/policy.rs:703-741 | NULL when the operator chose so, otherwise refused, naming the masked source lineage found |
| `Planning.PoliciesNeedAVerifiedShape` | crates/proxy/src/policy.rs:202-213 | whatever expression policies say where no shape was verified, every result set is accepted with the same plans or refused for the same cause |
| `Planning.PoliciesDecideVerifiedShapes` | crates/proxy/src/policy.rs:553-583 | where one was, and nothing else vouches for the field, it is released or masked as its policy says, and NULL by the operator's choice if there is none |
| `Planning.SoundPlanIsUnique` | crates/proxy/src/policy.rs:527-690 | soundness leaves no freedom: a request has at most one sound plan |
| `Planning.MoreRolesNeverLoosenAPlan` | crates/proxy/src/policy.rs:584-585 | granting roles to a principal whose roles already match never withholds less in any field of a plan |
| `Planning.ResolveSummarySource` | crates/proxy/src/policy.rs:934-977 | a summary is attributed exactly when every relation is qualified and known, one FROM position alone owns the column and the catalog classifies it; then it carries that column's mask for the roles |
| `OpaqueViews.FindOpaqueViews` | crates/proxy/src/catalog.rs:1737-1783 | the result is the least set holding every unreadable or untrusted view and closed under mentioning a member, that is, the views connected to such a view by mentions |
| `OpaqueViews.Sweep` | crates/proxy/src/catalog.rs:1749-1781 | one pass in any order adds only connected views, and an unchanged set is closed |
| `OpaqueViews.LeastMeansReaching` | crates/proxy/src/catalog.rs:1725-1783 | least closed set and connectedness are the same thing, for every candidate set |
| `OpaqueViews.DistrustSpreads` | crates/proxy/src/catalog.rs:1732-1747 | trusting fewer definitions never removes a view from the result |
| `OpaqueViews.OpaqueUnlessBelievable` | crates/proxy/src/catalog.rs:1737-1747 | a view without a definition, or with one that is blank, untrusted or unreadable, is always in the result; and the result is empty if and only if there is none |
| `OpaqueViews.BareNameOfQualified` | crates/proxy/src/catalog.rs:1768-1771 | only what follows the last dot is compared |
| `Coverage.CoverageChanges` | crates/proxy/src/catalog.rs:1636-1662 | the keyed diff reports what some reverse index gives; where no rule's name is ambiguous, exactly the linear scan's changes in its order |
| `Coverage.DisplayIndex` | crates/proxy/src/catalog.rs:1618-1623 | every display name, sent to a column that bears it, for any order of the map |
| `Coverage.KeyedDiffIsTheScan` | crates/proxy/src/catalog.rs:3174-3205 | the two diffs are equal for all rule lists and all iteration orders |
| `Coverage.DeterminedIffUnambiguous` | crates/proxy/src/catalog.rs:1603-1662 | the diff is independent of map order if and only if no rule's name is borne by two columns |
| `Coverage.ReplayTakesBeforeToAfter` | crates/proxy/src/catalog.rs:1645-1659 | replaying the reported changes on the earlier lookup, each of which must speak of what that lookup gave, yields the later one for every name the rules display and changes no other |
| `Coverage.DottedNamesCollide` | crates/proxy/src/catalog.rs:1608-1617 | two distinct rules whose names collide through a dot |
| `Buckets.NarrowBucketsAreBoundaries` | crates/proxy/src/mask.rs:1184-1199 | int2 and int4: the bytes read back as the unique multiple at most the value and less than a bucket below it; refused exactly when that multiple is outside the type |
| `Buckets.LongBucketsAreBoundariesOrTheMinimum` | crates/proxy/src/mask.rs:1200-1204 | int8: the same, except that a multiple below the minimum becomes the minimum |
| `Buckets.BoundaryIsUnique` | crates/proxy/src/mask.rs:1234-1237 | a value has one boundary |
| `Buckets.BucketingIsIdempotent` | crates/proxy/src/mask.rs:1184-1204 | a masked payload masks to itself, byte for byte |
| `Buckets.EqualOutputsShareABucket` | crates/proxy/src/mask.rs:1184-1204 | two outputs are equal if and only if the values share a bucket, saturated or not |
| `Buckets.CodecRoundTrip` | crates/proxy/src/mask.rs:1186-1190 | big-endian two's complement reads back what was written |
| `Buckets.PrintLongReads` | crates/proxy/src/mask.rs:1140-1142 | a printed 64-bit integer reads back through the same trimming and parsing |
| `Buckets.TextIsFlooredOnce` | crates/proxy/src/mask.rs:1137-1142 | the text served for an integer reads back as its floor, and is served again unchanged |
| `Buckets.TextAgreesWithBinaryIffTheBoundaryFits` | crates/proxy/src/mask.rs:1137-1142 | for a text and a payload of the same value, text and binary agree if and only if the column is int8 or the boundary fits it |
| `Buckets.NarrowTextCanLeaveTheType` | crates/proxy/src/mask.rs:1239-1245 | the int2 value -1 with a bucket of 32769: served as text, refused in binary |
| `Uuid.CanonicalUuid` | crates/proxy/src/mask.rs:276-298 | reading succeeds exactly on values that denote 16 bytes, and yields them |
| `Uuid.ReadText` | crates/proxy/src/mask.rs:280-297 | the nibble loop accepts exactly 32 hexadecimal digits of either case among any hyphens |
| `Uuid.HexInto` | crates/proxy/src/mask.rs:1268-1284 | the nibble loop appends the two-digit hexadecimal of every byte |
| `Uuid.UuidText` | crates/proxy/src/mask.rs:1295-1306 | the printed form denotes the bytes printed |
| `Uuid.HexDigitsAreTheirPlaces` | crates/proxy/src/mask.rs:1268-1284 | hexadecimal digits are read and printed by their place among the sixteen |
| `Uuid.HyphensStandInTheirPlaces` | crates/proxy/src/mask.rs:1295-1306 | the printed form has 36 characters, with hyphens at places 8, 13, 18 and 23 and nowhere else |
| `Uuid.PrintedFormDenotes` | crates/proxy/src/mask.rs:1295-1306 | printing then reading is the identity on all 16-byte values |
| `Uuid.HyphensDoNotMatter` | crates/proxy/src/mask.rs:270-282 | a hyphen anywhere never changes what a text denotes |
| `Uuid.CaseDoesNotMatter` | crates/proxy/src/mask.rs:283-291 | neither does the case of its digits |
| `Uuid.DenotesOne` | crates/proxy/src/mask.rs:292-297 | a value denotes at most one UUID |
| `Uuid.UuidBytes` | crates/proxy/src/mask.rs:1287-1293 | the shaped digest, by two byte updates |
| `Uuid.Shaped` | crates/proxy/src/mask.rs:1287-1293 | version and variant bits of sections 4.1.1 and 4.1.3 of RFC 4122, every other bit the digest's |
| `Uuid.Pseudonym` | crates/proxy/src/mask.rs:768-793 | for any digest: values denoting the same UUID, in whichever format, get pseudonyms denoting the same UUID, each in its own format; refused exactly when nothing is denoted |
| `Uuid.PseudonymsPrintAsVersionFour` | crates/proxy/src/mask.rs:1287-1306 | in print the version digit is 4 and the variant digit one of 8, 9, a, b |
| `Dates.ParseStemSpells` | crates/proxy/src/mask.rs:1039-1057 | the reader finds year, month, day and offset exactly where the text spells them |
| `Dates.ReadsBack` | crates/proxy/src/mask.rs:1058-1072 | reading what was printed gives the coarse value and nothing else |
| `Dates.TruncationComposes` | crates/proxy/src/mask.rs:1026-1072 | for every string and type: truncating twice is truncating once to the coarser unit, and acceptance does not depend on the unit |
| `Dates.EqualOutputsShareTheirUnit` | crates/proxy/src/mask.rs:1026-1072 | outputs are equal if and only if year, era, kept month and printed offset are |
| `Dates.EraIsKept` | crates/proxy/src/mask.rs:1033-1038 | the era suffix is kept where it was, never invented and never doubled |
| `Iban.PartIsThePlace` | crates/classify/src/main.rs:136-143 | a digit or letter stands for its place among the base-36 digits |
| `Iban.LooksLikeIban` | crates/classify/src/main.rs:123-150 | accepted exactly when well formed and the rotated, letter-expanded decimal number leaves 1 modulo 97; the 32-bit steps never saturate |
| `Iban.RemainderOfTheNumber` | crates/classify/src/main.rs:140-149 | the running remainder is that of the whole number, for every string |
| `Iban.SubstitutionIsCaught` | crates/classify/src/main.rs:119-150 | two candidates one digit-for-digit or letter-for-letter substitution apart are never both accepted |
| `Iban.TranspositionIsCaughtUnlessConfusable` | crates/classify/src/main.rs:119-150 | swapping any two neighbours of a well-formed candidate, also across the rotation point, is caught if and only if they are not a digit and the letter worth eleven times as much |
| `Iban.NormaliseIsIdempotent` | crates/classify/src/main.rs:124-128 | spaces and case are gone after one pass |
| `Luhn.LooksLikeCard` | crates/classify/src/main.rs:90-117 | accepted exactly for 13 to 19 digits whose doubled-and-cast-out sum is a multiple of ten |
| `Luhn.SubstitutionIsCaught` | crates/classify/src/main.rs:83-117 | one wrong digit is always caught |
| `Luhn.TranspositionIsCaughtUnlessZeroNine` | crates/classify/src/main.rs:83-117 | swapping different neighbours is caught if and only if they are not 0 and 9 |

## Left out

- Runs longer than 2^64 - 1 operations: the counters saturate, as in the program, and the run theorems are stated up to the first possible saturation.
- PlanOvertaking.OwnPlanIffNotOvertaken: for Executes with a generation on record, which `PlanRuns.GenerationMeansTheTextIsUnchanged` makes exact; what holds without one is `PlanOvertaking.CounterlessPlansAreOfALaterText`.
- Pipeline.QueuesAreProjections: suspension and local refusals are outside the reference server, and each Bind is executed at most once. A legal run ends where an error arrives; `PipelineErrors` and `PipelineNames` say what is then queued and on record, not how the session goes on from there.
- PipelineNames.TextsAfterAnErrorIff: statements only; on the server the portals of a failed exchange end with its transaction, which is not part of this model.
- PipelineRefusals.SuppressedInStepIff: for refusals charged to their own exchange, which `PipelineRefusals.RefusalIsOfItsExchangeIff` makes exact; like the error theorems, it does not follow the session further.
- Reload.CurrentPlansAgreeWithWhatIsInstalled: atomics are sequentially consistent and generations do not wrap; the program uses relaxed ordering and a wrapping sum. TLS material and rate limits, swapped in the same reload, carry no plans and are not modelled.
- Planning.PlanFor: the rejection's wording and the bucket an opaque refusal is counted under; the primed HMAC state in a plan entry; metrics and the nudge to the refresher.
- JSON policies and projections: a projection is an uninterpreted string carried from the expression policy to the plan entry.
- Message parsing and the session loop: operations arrive already decoded, in any order.
- SQL analysis and lineage: their verdicts are arbitrary inputs, or functions given to `OpaqueViews`.
- Uuid.Pseudonym: the digest is an arbitrary function of the canonical bytes; HMAC-SHA-256 and the text and e-mail pseudonyms are not modelled.
- Buckets.TextIsFlooredOnce: the integer arm of the text format; `numeric` and floats belong to an external decimal library and to floating point.
- Dates.TruncationComposes: the text format; the binary codecs of dates and timestamps belong to an external library.
- Building a classification from rules and semantic types, and its validation: tables over configuration, decided once before any result is planned.
- Redaction by characters, regular-expression scrubbing and IP prefixes: what they produce is defined by the character rules themselves, or by an external regular-expression engine.
- Catalog queries, retries, refresh timing, TLS, metrics, rate limiting and the command line: I/O and plumbing.
