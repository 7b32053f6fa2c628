# Verified model of the DevWork and DesignWork machines

The service drives coding agents through two state machines. A **DesignWork** lets an agent write a design document,
validates it and publishes it. A **DevWork** takes a published design through rounds of planning, context retrieval,
development and review until a review passes, the rounds run out, or a step fails twice; humans may cancel, rerun,
continue or resume it. This project models both machines and the text and bookkeeping algorithms they rest on, and
proves what holds in every reachable state, over every behaviour of agents, files, worktrees and sessions.

| file | contents |
|---|---|
| `DevWorkSpec.dfy` | the DevWork machine on values: one function for each handler, retry helper and human action |
| `DevWorkInvariant.dfy`, `DevWorkSessions.dfy` | its inductive invariant, its session invariant |
| `DevWorkProgress.dfy` | a table, written without the handlers, of what can happen in a tick and what follows from it; the proof that the handlers keep to it |
| `DevWorkTermination.dfy`, `DevWorkReasons.dfy` | derived from the table: the termination measure, and why a tick sends a DevWork back |
| `DevWorkTheorems.dfy` | what follows for every reachable DevWork |
| `DevWorkMachine.dfy`, `SessionCache.dfy` | the machine as a class that overwrites its row, with its session cache and its driver loop, proved equal to the functions |
| `Sessions.dfy`, `SessionNames.dfy` | agent sessions as values; session names and the substring test that selects a round |
| `PlanAudit.dfy`, `PyText.dfy` | the plan-checklist parser and the checkbox patcher, two scanners over one markdown text; the Python string functions they use |
| `PlanPattern.dfy` | their regular expressions as statements about positions in a line; which items a note has and which of them a review answers |
| `Reviewer.dfy`, `ReviewAcceptance.dfy`, `Json.dfy` | the parser of review JSON; what it accepts, field by field |
| `DesignWorkSpec.dfy`, `DesignWorkMachine.dfy` | the DesignWork machine: functions, class with the uncapped driver loop |
| `DesignWorkProgress.dfy`, `DesignWorkTheorems.dfy` | the state after a tick field by field, written without the handlers; what follows for every reachable DesignWork |
| `PromptBudget.dfy`, `HostChooser.dfy`, `Options.dfy` | the prompt-budget loop; the round-robin host chooser; `Option` |

A tick and a human action are atomic. Everything a tick meets outside the machine (return codes, files an agent wrote,
verdicts of checks, exceptions, sessions that refuse to close) is an argument, `Env`, and the theorems hold for all its
values. "Reached" means: reached from creation by any sequence of driver ticks, ticks by hand, cancels (between ticks, or
while a handler waits for its agent), reruns, continuations and step resumes.

## Where the code does less than its documentation suggests

* `## ` headings made of `##`, one blank and an exotic line end (vertical tab, form feed, U+001C to U+001E, U+0085,
  U+2028, U+2029) are headings for the patcher and not for the parser. Parsing and patching commute exactly if no open,
  confirmed checkbox stands behind such a line (`PlanAudit.PatchCommutes`, `PlanAudit.PatchNeedNotCommute`).
* A send-back reason reaches the handler that runs next, except when a human resumes Step2 in round 1: its prompt takes
  reasons from rounds after the first only (`DevWorkTheorems.SendBackIsRead`, `DevWorkTheorems.ManualReasonCanBeLost`).
* A cancel that stops Step5 after its agent has written the review file leaves the file; after a rerun, a review agent
  that writes nothing has that old review recorded as its own. Step5 accepts a stale review exactly if a complete one
  lies at its path (`DevWorkTheorems.ReviewIsFresh`, `DevWorkTheorems.StaleReviewCanBeRecorded`).
* A review without a score breakdown that is taken from stdout is written to the review file in a form that the parser
  refuses (`Reviewer.PersistedOutcomeReadsBack`).
* Some JSON makes the review parser raise an error that its caller does not handle: a list with the element `"score"`, a
  text with that word, any other value that is not an object, a null where a part score is needed, a text of digits that
  `int` refuses. `Reviewer.RaisesExactly` says for which values it happens. The driver then escalates the work without a
  way to resume it (`DevWorkTheorems.EscapingReviewEndsTheWork`).
* The header of `src/design_work_sm.py` calls every handler idempotent. D6 is not: after its insert, or once its file is
  gone, the work never completes (`DesignWorkTheorems.PersistCanFinish`, `DesignWorkTheorems.DraftCanBlockForEver`).
* If the prompt file is lost after the executor has written the output of a loop, D3 composes the prompt again and D4
  calls the executor for that loop a second time (`DesignWorkTheorems.CallIsExact`,
  `DesignWorkTheorems.SecondCallCanHappen`).
* The DesignWork driver has no tick cap. It ends if composed prompt files are not lost, and need not end if they are
  (`DesignWorkTheorems.DriverBound`, `DesignWorkTheorems.DriverNeedNotEnd`).

## Model

| member | source | states |
|---|---|---|
| DevWorkInvariant.NextKeeps | src/dev_work_sm.py:697-1293 | every tick, by the driver or by hand, and every human action keeps one invariant over the row, its gates, notes, reviews and review files |
| DevWorkInvariant.CreateHolds | src/dev_work_sm.py:525-695 | a new DevWork satisfies the invariant, for every valid configuration and override |
| DevWorkTermination.TickDrops | src/dev_work_sm.py:2246-2547 | each driver tick of a work in progress lowers a weighted measure over rounds and unused retries, by whatever branch it leaves |
| DevWorkTermination.MeasureBound | src/dev_work_sm.py:63-68 | the measure never exceeds `2 + 9 * max(1, max_rounds)`, at most 452, and is 0 exactly in terminal steps |
| DevWorkTermination.DriverEnds | src/dev_work_sm.py:723-750 | from every state satisfying the invariant the driver is terminal after as many ticks as the measure |
| DevWorkTheorems.TickIsExact | src/dev_work_steps.py:921-1829 | for every reachable work a driver tick does what the table says: what happened in it (return codes, files, findings, readings of the review, coverage of the plan) decides next step, round, category, retries, the reason recorded last of at most 50, descriptors, notes, findings, reviews, score, note text, review file, prompt and sessions started |
| DevWorkTheorems.ForwardExactly | src/dev_work_steps.py:1246-1324 | the work moves on from INIT to Step5, step by step, if and only if the listed conditions hold; from Step4 without a fault, with return code 0, and with findings that are there, or were missing or invalid and delivered by a repair with return code 0 |
| DevWorkProgress.LimitsAreThese | src/dev_work_sm.py:2024-2039 | the threshold is the override of the row if it lies in 1..100, else that of the document if it does, else the default; the budget is the override if it lies in 0..50, else the configuration |
| DevWorkTheorems.CreationIsExact | src/dev_work_sm.py:525-695 | a work is created exactly if the rounds asked for lie within the configuration; rounds and score asked for become its budget and bar |
| DevWorkTheorems.ManualTickIsExact | src/dev_work_sm.py:697-721 | a tick by hand is one of the driver unless its handler raises, which it does exactly on a fault at the prompt or a reading that raises; then step, category and gates stay, where the driver escalates |
| DevWorkTheorems.AgentsStartCold | src/dev_work_steps.py:1175-1372 | a tick starts a new session for each agent it asks, and no other; only a second try of Step3 goes on in the session of the first |
| DevWorkTheorems.SessionsLeft | src/dev_work_sm.py:1902-1977 | what a driver tick leaves in the cache: the build session of the round exactly if Step3 found or started one and keeps the round, or Step4 delivers; else nothing |
| DevWorkTheorems.DriverReachesTerminal | src/dev_work_sm.py:723-750 | from every reachable state, also after rerun, continue or resume, the driver reaches a terminal step within `2 + 9 * max(1, max_rounds)` ticks, so the breaker at 600 never fires |
| DevWorkTheorems.RoundBudget | src/dev_work_sm.py:306-311 | the effective `max_rounds` lies in 0..50, work in progress is below `max(1, max_rounds)`, and over any number of continuations there are at most 50 rounds, notes and reviews |
| DevWorkTheorems.RoundsNeverDecrease | src/dev_work_sm.py:2269-2326 | no sequence of actions lowers `iteration_rounds` |
| DevWorkTheorems.NoteOfTheRound | src/dev_work_steps.py:1075-1095 | INIT to Step2 have no note of their round, so the unique insert never conflicts; Step3 to Step5 find their round's note as the latest; notes have distinct rounds |
| DevWorkInvariant.LatestNoteIsThisRounds | src/dev_iteration_note_manager.py:81-86 | in Step3 to Step5 the highest note is this round's: the branches "no note" and "round mismatch" are unreachable |
| DevWorkTheorems.SessionDiscipline | src/dev_work_sm.py:1673-1977 | only the build session of the current round outlives a tick, and only in Step3 to Step5; terminal steps hold none; if every close succeeded, the cache is what lives and no two sessions ever lived at once |
| DevWorkSessions.NextHolds | src/dev_work_sm.py:1902-1977 | every action keeps that session discipline |
| DevWorkTheorems.ReviewsCoverTheirNotes | src/dev_work_steps.py:1703-1743 | each round has at most one review, and for every item of its note, as patched, that is not cancelled some record of the review has the item's id |
| DevWorkTheorems.ReviewFileOnEntry | src/dev_work_sm.py:2476-2510 | in Step5 this round's review file is absent, unless in this round a Step5 was cancelled while its agent ran, or a tick by hand raised (then the file does not parse); so a round that is only driven, retried, resumed and continued finds none |
| DevWorkTheorems.ReviewIsFresh | src/dev_work_steps.py:786-858 | every tick records only what was parsed from what the agent produced in that tick, if and only if no complete review lay at the path before |
| DevWorkTheorems.StaleReviewCanBeRecorded | src/dev_work_steps.py:1352-1372 | a reachable work, cancelled during Step5 and rerun, for which a complete review lies at the path |
| DevWorkTheorems.ResumePointsExclusive | src/dev_work_sm.py:364-425 | the two resume descriptors never stand together and only in ESCALATED; the recorded prior step stands exactly in CANCELLED |
| DevWorkTheorems.StepResumeWorks | src/dev_work_sm.py:1181-1293 | a step resume is accepted exactly if its descriptor is there, and re-enters Step2, Step4 or Step5 of the same round with the same counters, budget, notes, reviews and review files, threshold and sessions, with only the descriptor taken out and its reason recorded, in a state satisfying every invariant |
| DevWorkTheorems.ContinuationWorks | src/dev_work_sm.py:1033-1179 | a continuation is accepted exactly if the work stopped at its last round, the request is well formed and the new budget is at most 50; it enters Step2 of the next round; only the two overrides, the descriptor and the recorded reason change |
| DevWorkTheorems.ContinuationLimits | src/dev_work_sm.py:1073-1128 | the budget of a continued work is the rounds done plus those asked for, and its bar changes exactly if the request names one |
| DevWorkTheorems.CancelAndRerunAccepted | src/dev_work_sm.py:786-915 | a cancel is accepted exactly in a step in progress, a rerun exactly in CANCELLED; a cancel changes the step, the recorded prior step and the sessions only |
| DevWorkTheorems.CancelDuringLeaves | src/dev_work_sm.py:822-836 | what a work leaves that is cancelled while its handler waits: its prompt, its sessions, the note or review file as the agent left it, the mark of the review cut off |
| DevWorkTheorems.CancelThenRerun | src/dev_work_sm.py:786-915 | rerunning a cancelled work restores it but for its sessions: no retry or round is gained or lost |
| DevWorkTheorems.CancelDuringThenRerun | src/dev_work_sm.py:822-836 | a work cancelled while a handler waits for its agent is rerun at the same step with the same row, gates, notes and reviews, in a state satisfying the invariant |
| DevWorkTheorems.FinalIsFinal | src/dev_work_sm.py:1040-1072 | a completed work, and an escalated one without a descriptor, is changed by no action |
| DevWorkTheorems.NewRoundHasAllRetries | src/dev_work_sm.py:2359-2415 | whenever a new round starts, by a tick or a continuation, none of its retries is used |
| DevWorkTheorems.CompletionIsSound | src/dev_work_steps.py:1769-1787 | COMPLETED rests on a review of the current round without a category and with a score at the bar (valid override, else valid document threshold, else default); with a breakdown both part scores reach it; `first_pass_success` exactly if no round was burnt |
| DevWorkTheorems.CompletionIsExact | src/dev_work_steps.py:1719-1829 | a driver tick completes the work exactly if it records a review, patches the note, and the review has a score at that bar and no category; a gap ends the round, at the last one by escalation; any other review escalates |
| DevWorkTheorems.CompletionCanHappen | src/dev_work_steps.py:1769-1787 | a reachable completed work, in its first round |
| DevWorkTheorems.SendBackIsRead | src/dev_work_sm.py:245-304 | after an automatic loop, a retry of Step4 or Step5, a continuation or a resume one reason is recorded last, for exactly the round and step that run next, despite the cap of 50: with the category shown on the row, and what went wrong in the tick or what the descriptor held; the next handler reads it unless it is Step2 of round 1 |
| DevWorkReasons.TickExplained | src/dev_work_sm.py:2246-2547 | every reason a tick leaves, for the next handler or in a resume descriptor, is that of its failure: the return code, the state of the note or findings, the missing plan ids of the outcome read, or the score and category of the review recorded |
| DevWorkTheorems.DescriptorIsExplained | src/dev_work_sm.py:364-425 | so for both resume descriptors in every reachable state that a tick stops in |
| DevWorkTheorems.ManualReasonCanBeLost | src/dev_work_sm.py:2169-2170 | a reachable work resumed by hand at Step2 of round 1 whose handler reads no reason |
| DevWorkTheorems.PromptCarriesReasons | src/dev_work_steps.py:1214-1243 | a tick, of the driver or by hand, writes one step prompt, with all reasons on record for its step and round in their order (none for Step3 and for Step2 of round 1), if and only if the handler comes to ask its agent |
| DevWorkTheorems.ReasonReachesThePrompt | src/dev_work_sm.py:278-304 | the reason of a send-back stands in the prompt of the tick that follows, whenever that tick asks its agent, unless it is Step2 of round 1 |
| DevWorkMachine.DevWork.constructor | src/dev_work_sm.py:525-695 | a new row is the created state, with a fresh empty session cache, and satisfies both invariants |
| DevWorkMachine.DevWork.LoopFeedbackForRound | src/dev_work_sm.py:278-304 | the loop returns the entries for a round and step, in order |
| DevWorkMachine.DevWork.AppendLoopFeedback | src/dev_work_sm.py:245-276 | the entry is appended and the last 50 are kept; nothing else changes |
| DevWorkMachine.DevWork.LoopOrEscalate | src/dev_work_sm.py:2246-2345 | Step4 and Step5 are retried in the same round; any other target burns the round or, at the last one, escalates with a continuation descriptor |
| DevWorkMachine.DevWork.RetryStep2SameRoundOrEscalate | src/dev_work_steps.py:349-376 | one retry a round, then escalation with a step-resume descriptor |
| DevWorkMachine.DevWork.RetryStep4SameRoundOrEscalate | src/dev_work_sm.py:2347-2444 | the reason is recorded, the attempt counted and the round's sessions closed, once; then escalation with a step-resume descriptor |
| DevWorkMachine.DevWork.RetryStep5SameRoundOrEscalate | src/dev_work_sm.py:2446-2547 | as for Step4, and the round's review file is deleted in both cases |
| DevWorkMachine.DevWork.S2Iteration | src/dev_work_steps.py:921-1095 | Step2 ends in the specified state, with its plan session closed also when an exception leaves it |
| DevWorkMachine.DevWork.S3Context | src/dev_work_steps.py:1097-1173 | Step3 ends in the specified state: forward, one retry in place, or a burnt round |
| DevWorkMachine.DevWork.S4Develop | src/dev_work_steps.py:1175-1324 | Step4 closes the session of Step3, runs the agent, repairs a missing findings file once, and ends in the specified state |
| DevWorkMachine.DevWork.S5Review | src/dev_work_steps.py:1352-1829 | Step5 closes the build session, checks, reviews, repairs, records and patches, and ends in the specified state with its review session closed also when an exception leaves it |
| DevWorkMachine.DevWork.ReadStep5ReviewOutcome | src/dev_work_steps.py:786-858 | the file's outcome if it parses, else that of stdout, which then is what the file holds |
| DevWorkMachine.DevWork.RunToCompletion | src/dev_work_sm.py:723-784 | the bounded loop leaves through a terminal step within the measure, whatever happens outside, and the code behind it is unreachable |
| DevWorkMachine.DevWork.ManualTickOnce | src/dev_work_sm.py:697-721 | a tick by hand passes an exception on and leaves the row where the handler got to; both invariants are kept |
| DevWorkMachine.DevWork.Cancel | src/dev_work_sm.py:786-840 | accepted exactly in a step in progress, which it records; closes all sessions; both invariants are kept |
| DevWorkMachine.DevWork.CancelWhileWaiting | src/dev_work_sm.py:786-840 | the driver is stopped where it waits for its agent, the `finally` of Step2 and Step5 runs, the row is cancelled and every session closed |
| DevWorkMachine.DevWork.RerunCancelled | src/dev_work_sm.py:842-915 | accepted exactly in CANCELLED with a prior step that is not terminal, which it restores |
| DevWorkMachine.DevWork.ContinueAfterEscalation | src/dev_work_sm.py:1033-1179 | refuses every malformed or unfounded request unchanged; else sets budget, threshold, round and step and records the reason |
| DevWorkMachine.DevWork.ResumeStepAfterEscalation | src/dev_work_sm.py:1181-1293 | refuses without a descriptor, unchanged; else re-enters its step and records the reason |
| SessionCache.SessionCache.RunLlmSession | src/dev_work_sm.py:1748-1810 | a session is reused exactly if the cache holds it by name; a stale one is closed first; a failed start leaves the cache as it was |
| SessionCache.SessionCache.DeleteRoleSession | src/dev_work_sm.py:1902-1926 | closes the session of a role exactly if it belongs to the round |
| SessionCache.SessionCache.DeleteRoundSessions | src/dev_work_sm.py:1928-1959 | the substring test and the loop close exactly the sessions of the round |
| SessionCache.SessionCache.DeleteAllSessions | src/dev_work_sm.py:1961-1977 | every cached session is closed and the cache is empty |
| SessionNames.MarkerSelectsRound | src/dev_work_sm.py:1940-1944 | `-r{n}-` occurs in a session name exactly if the name belongs to round n |
| SessionNames.NamesInjective | src/llm_runner.py:55-61 | equal names mean equal id, round and role |
| PlanAudit.ExtractPlanChecklistItems | src/dev_plan_audit.py:34-66 | the parser loop returns the items of the plan section, line by line |
| PlanAudit.ApplyPlanVerificationCheckboxes | src/dev_work_steps.py:303-343 | the loop that edits the line list in place returns the patched text for the ids confirmed done |
| PlanPattern.MatchExactly | src/dev_plan_audit.py:13-16 | the checkbox matcher finds a box exactly on the lines that match the regular expression, stated by positions, and with its groups |
| PlanPattern.TitleExactly | src/dev_plan_audit.py:39-42 | so for the heading expression and its title |
| PlanPattern.LineItemExactly | src/dev_plan_audit.py:45-65 | a line holds an item exactly if it matches: its id, checked if the mark is `x` or `X`, cancelled if two tildes stand side by side on the line, its importance the grade behind the colon |
| PlanPattern.ItemsExactly | src/dev_plan_audit.py:34-66 | an item is in the parse exactly if a line holds it whose last heading above is that of the plan |
| PlanPattern.MissingExactly | src/dev_plan_audit.py:184-197 | the missing ids are those of the items that are not cancelled and whose id no record carries |
| PlanPattern.DoneExactly | src/dev_work_steps.py:303-317 | the ids confirmed done are those of a record with status `done` whose `implemented` is not false |
| PlanPattern.PatchExactly | src/dev_work_steps.py:303-343 | line by line, for the records of a review: a line under the plan heading and not behind a phantom one, with an open item that a record confirms, gets `x` at its mark; every other line stays |
| PlanAudit.PatchCommutes | src/dev_work_steps.py:303-343 | parse after patch is the parse with `checked` set for confirmed ids, if and only if no open confirmed checkbox stands behind a phantom heading |
| PlanAudit.OrdinaryTextCommutes | src/dev_work_steps.py:303-343 | so it is for every text whose lines end in CR and LF only |
| PlanAudit.PatchNeedNotCommute | src/dev_plan_audit.py:34-66 | a text and ids for which it is not |
| PlanAudit.PhantomShape | src/dev_work_steps.py:319-327 | the lines only the patcher takes for headings: `##`, one blank, one exotic line end |
| PlanAudit.PatchOnlyTicks | src/dev_work_steps.py:303-343 | for every text, items keep order, id, label, importance and cancellation; ticks are only added, only for confirmed ids; the active ids stay |
| PlanAudit.PatchTouchesPlanOnly | src/dev_work_steps.py:319-343 | line by line: exactly the lines of the plan section that hold an open item confirmed done, and do not stand behind a phantom heading, are ticked; every other line of the note stays |
| PlanAudit.PatchTouchesBoxesOnly | src/dev_work_steps.py:335-341 | character by character: the text keeps its length; only blanks between `[` and `]` change, to `x` |
| PlanAudit.PatchTwice | src/dev_work_steps.py:303-343 | two patches in a row are one with both sets of ids; hence idempotent |
| PlanAudit.PatchNothing | src/dev_work_steps.py:316-317 | without confirmed ids the text is unchanged |
| Reviewer.AcceptedIsWellFormed | src/reviewer.py:117-238 | every accepted outcome has a score in 0..100, well-shaped plan records and, with a breakdown, a score that is `a*b/100` rounded half up and at most `a` and `b` |
| ReviewAcceptance.AcceptsExactly | src/reviewer.py:50-238 | a payload is accepted with an outcome if and only if `Accepts` holds, which names the admitted values of every field and what the outcome holds for them; no category exactly for an absent, null or empty one |
| ReviewAcceptance.DigitsValueIsPlaceValue | src/reviewer.py:50-56 | a text of digits is read by place value |
| ReviewAcceptance.DigitOfExactly | src/reviewer.py:54-56 | each digit stands for what it shows, a digit outside ASCII for its place in a run of ten |
| DevWorkTheorems.ParseExactly | src/dev_work_steps.py:786-858 | what Step5 takes for a review is JSON that is accepted; what leaves the parser as an error is a text that cannot be loaded or JSON that escapes |
| Reviewer.RoundsHalfUpUnique | src/reviewer.py:45-47 | the integer formula of the code is rounding half up, and nothing else is |
| Reviewer.PersistedOutcomeReadsBack | src/dev_work_steps.py:146-159 | the file written for an outcome from stdout parses to that outcome exactly if it carries a breakdown, and is refused otherwise |
| Reviewer.RaisesExactly | src/reviewer.py:50-238 | the parser raises an error other than the one its caller handles if and only if the value is of one of the listed shapes |
| DevWorkTheorems.EscapingReviewEndsTheWork | src/dev_work_sm.py:751-784 | a reachable work in Step5 whose agent writes a review with a null plan score ends ESCALATED without a resume descriptor, and no action changes it again |
| Reviewer.CoerceScoreBreakdown | src/reviewer.py:74-114 | the loop over the score keys computes the specified breakdown, refusal or error |
| Reviewer.CoercePlanVerification | src/reviewer.py:178-229 | the loop accepts a list exactly if every record is well shaped, and returns it unchanged |
| DesignWorkTheorems.NextKeeps | src/design_work_sm.py:425-516 | every tick, crash, cancel and rerun keeps one invariant over the row, its files, their stamps and the document rows |
| DesignWorkProgress.TickIs | src/design_work_sm.py:674-1035 | a tick leaves exactly the state that is given field by field (stage, loop, feedback, files with their stamps, rows, link, calls), and raises exactly in the listed cases |
| DesignWorkTheorems.LoopsAreGiven | src/design_work_sm.py:1080-1105 | after a missing or invalid output the next loop starts if and only if the loop is below the limit (valid override, else configuration), else the work is escalated |
| DesignWorkTheorems.EveryLoopCanBeReached | src/design_work_sm.py:1080-1105 | for every configuration, and every loop up to its limit, a reachable work that is in it |
| DesignWorkTheorems.FailedCallEscalates | src/design_work_sm.py:879-889 | a call with a nonzero return code escalates and costs no loop; with zero the work goes on |
| DesignWorkTheorems.CreationIsExact | src/design_work_sm.py:253-332 | a work is created exactly if its loops lie within the configuration and mode `new` has no parent; the loops asked for are its limit |
| DesignWorkTheorems.DriverBound | src/design_work_sm.py:455-465 | a driver still running after n ticks: n plus the measure left is at most the measure at the start plus two for each prompt file lost |
| DesignWorkTheorems.DriverReachesTerminal | src/design_work_sm.py:455-465 | from every reachable state, if no prompt file is lost, the driver ends within `8 + 4 * max_loops` ticks |
| DesignWorkTheorems.LostPromptsNeverEnd | src/design_work_sm.py:817-823 | if the prompt file is lost before every D4, the driver never ends and never calls the executor |
| DesignWorkTheorems.DriverNeedNotEnd | src/design_work_sm.py:455-465 | a reachable work whose driver does not end under such losses, however long it runs |
| DesignWorkTheorems.LoopBudget | src/design_work_sm.py:1080-1097 | the loop never passes the limit, which is at most 50 |
| DesignWorkTheorems.RecoveryIsExact | src/design_work_sm.py:824-833 | the file test of D4 passes exactly if the output was written after the present prompt or the two files share a stamp |
| DesignWorkTheorems.CallIsExact | src/design_work_sm.py:824-857 | with its prompt present D4 goes on without a call exactly if the output was written after that prompt or shares its stamp, else it calls the executor once |
| DesignWorkTheorems.NoSecondCall | src/design_work_sm.py:824-847 | once this loop's output exists and no prompt file was lost since, no sequence of ticks, crashes, cancels and reruns calls the executor for this loop again, as long as no prompt file is lost before the work leaves the loop: all further calls are for later loops |
| DesignWorkTheorems.SecondCallCanHappen | src/design_work_sm.py:817-823 | a reachable work with this loop's output whose prompt file is then lost, and whose executor is called for the same loop twice |
| DesignWorkTheorems.StaleOutputIsNotTaken | src/design_work_sm.py:824-857 | an output from before this loop never passes the test if no two files share a stamp: the executor is called |
| DesignWorkTheorems.FeedbackReachesThePrompt | src/design_work_sm.py:1080-1105 | a new loop is told exactly what the validator missed in the last output, and its prompt file says so |
| DesignWorkTheorems.PublishedTextIsValid | src/design_work_sm.py:952-1035 | what the work inserts or publishes passed the validation, at most once; COMPLETED means exactly one row, its own, published and linked, with the text at the output path; mode `optimize` never completes |
| DesignWorkTheorems.PersistCanFinish | src/design_doc_manager.py:42-125 | a work at D6, cancelled or not, can still be completed exactly if no row for its slug and version exists and its file is there |
| DesignWorkTheorems.DraftCanBlockForEver | src/design_work_sm.py:1021-1035 | a reachable work that died after the insert of D6: its own draft keeps it from completing under every sequence of actions |
| DesignWorkTheorems.CancelThenRerun | src/design_work_sm.py:467-577 | a rerun undoes a cancel exactly; a terminal work cannot be cancelled |
| DesignWorkTheorems.RerunIsExact | src/design_work_sm.py:516-577 | a rerun is accepted exactly in CANCELLED with a recorded stage that is not terminal, or with none; it restores that stage, else LLM_GENERATE if there is a prompt, else INIT, and changes nothing else |
| DesignWorkTheorems.FinalIsFinal | src/design_doc_manager.py:127-144 | over every run no row loses its text or its published status; a completed or escalated work keeps its state, output, rows and link, and calls no executor |
| DesignWorkMachine.DesignWork.D1ModeBranch | src/design_work_sm.py:678-693 | the stubbed mode, and mode `new` with a parent version, escalate and raise |
| DesignWorkMachine.DesignWork.D3PromptCompose | src/design_work_sm.py:713-753 | writes the prompt of the loop with what is missing; a crash may stop it after the file or after the gates |
| DesignWorkMachine.DesignWork.D4LlmGenerate | src/design_work_sm.py:806-898 | back to D3 without a prompt file, on without a call if the output is not older, else one executor call |
| DesignWorkMachine.DesignWork.D5PostValidate | src/design_work_sm.py:952-992 | to D6 exactly if the output is there and valid, else a new loop or escalation with the feedback |
| DesignWorkMachine.DesignWork.D6Persist | src/design_work_sm.py:994-1035 | persist, publish, complete, with what a crash or a failed insert leaves behind |
| DesignWorkMachine.DesignWork.PersistDoc | src/design_doc_manager.py:42-125 | refuses a second row; writes the file; a failed insert deletes it |
| DesignWorkMachine.DesignWork.Publish | src/design_doc_manager.py:127-144 | a draft is published and linked once; anything else is refused |
| DesignWorkMachine.DesignWork.RunToCompletion | src/design_work_sm.py:455-465 | the uncapped loop terminates, in a terminal state or by an exception, within the bound, if prompt files stop disappearing at some tick |
| DesignWorkMachine.DesignWork.RerunCancelled | src/design_work_sm.py:516-577 | restores the recorded stage; without one, LLM_GENERATE if there is a prompt, else INIT |
| PromptBudget.LoadWorkspacePromptFiles | src/workspace_file_refs.py:200-243 | each file's inlined content in closed form: it depends on the demand of the files before it only |
| PromptBudget.TotalIsMinimum | src/workspace_file_refs.py:209-228 | the inlined total is the smaller of the limit and the sum of the files' lengths, each capped |
| PromptBudget.CutOnlyWhenExhausted | src/workspace_file_refs.py:217-228 | each content is a prefix of its file, cut below its own limit only if it uses the budget up; a readable file is left out exactly if the budget was used up before it |
| PromptBudget.OthersCostNothing | src/workspace_file_refs.py:209-228 | a file that is no text, or no UTF-8, is left out; one that cannot be read leaves a note while there is budget; neither uses any |
| HostChooser.ConfiguredHostServes | src/agent_hosts/dispatch_decider.py:66-94 | the host chosen is in the list, runs the agent and carries every label asked for, and is healthy if any such host is; `local` exactly if none serves |
| HostChooser.HealthyHostServes | src/agent_hosts/dispatch_decider.py:97-120 | so among the healthy hosts only |
| HostChooser.ConfiguredExactly | src/agent_hosts/dispatch_decider.py:81-89 | the list turned through holds exactly the hosts that serve, the healthy ones if there are any |
| HostChooser.PickCount | src/agent_hosts/dispatch_decider.py:81-120 | the exact number of times a host is chosen, from any counters, with any other keys in between, by either chooser |
| HostChooser.RoundRobinIsFair | src/agent_hosts/dispatch_decider.py:81-120 | over n calls with k unchanging hosts every host is chosen `n / k` times, rounded down or up |
| HostChooser.ChoosersAgree | src/agent_hosts/dispatch_decider.py:66-120 | both choosers pick from the same list as long as a supporting host is healthy, and differ only otherwise |
| HostChooser.HostChooser.ChooseConfiguredHost | src/agent_hosts/dispatch_decider.py:66-94 | the host at the counter of the key, the healthy ones preferred; only that counter moves |
| HostChooser.HostChooser.ChooseHost | src/agent_hosts/dispatch_decider.py:97-120 | the host at the counter of the key among the healthy ones, or `local` |

## Left out

- DevWorkMachine.DevWork.RunToCompletion: does not model exceptions at every statement of a handler, but where a prompt is prepared and where the review is parsed; a database error elsewhere also ends in ESCALATED.
- DevWorkTheorems.ReviewIsFresh: assumes that only Step5 and its agent write the review file; a death of the whole process in the middle of a handler is not modelled.
- DevWorkTheorems.ReviewsCoverTheirNotes: assumes that nobody but Step2 and the patch writes an iteration note.
- DevWorkMachine.DevWork.CancelWhileWaiting: does not model a cancel that stops a handler anywhere but before its prompt and at the wait for its first agent call; between its writes the code sets `current_step` unguarded.
- DevWorkTheorems.SessionDiscipline: does not model the loss of the in-memory cache by a restart and the sweep of orphans that follows it.
- DevWorkMachine.DevWork.RerunCancelled: a legacy row without a recorded prior step starts over at INIT; the guess the code makes for such rows is not modelled.
- DevWorkMachine.DevWork.S4Develop: the contents of the findings are not modelled, only whether they were found, valid and well shaped; whether the file is stale after a manual resume is not claimed.
- DevWorkMachine.DevWork.S2Iteration: the check for required H2 sections is a verdict of the environment.
- DesignWorkTheorems.PublishedTextIsValid: the design validator is a verdict that depends on the text only; it assumes that only this work writes its output path and inserts rows for its slug and version once it was created.
- DesignWorkMachine.DesignWork.D6Persist: the choice of the rubric threshold from the front matter is not modelled.
- PlanPattern.LineItemExactly: says nothing of an item's label, which no code reads.
- PlanAudit.ExtractPlanChecklistItems: the missing plan ids are a set; their sorted order and the rendered audit targets (`render_step5_plan_audit_targets`) are not modelled.
- The subprocess, SSH and heartbeat machinery behind an agent call: an agent call is a return code and the files it leaves.
- Git worktrees: the checks before Step1 and Step5 are verdicts.
- SQLite, transactions and concurrent drivers: rows are fields, tables are maps and sequences, ticks are atomic.
- HTTP routes, authentication, webhooks, metrics and events: adapters around the machines.
- Prompt wording and templates: a prompt is its step, its round and the reasons in it; the prompts of the repair calls within a step are left out.
- JSON text and fences: the review parser starts from a parsed value, or from the fact that there is none.
- The score history appended to a note: a capped list read by metrics only.
