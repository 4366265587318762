# crobe, modelled

crobe runs a playbook of sections, assertions and commands, and a local server streams the run to a
browser. This project models the five parts of it in which steps interact, and proves what each
promises. `dafny verify dfyconfig.toml` checks everything.

* **The run engine** (`director.dfy`, `engine.dfy`, `report.dfy`). `RunOf` says what a run is, for an
  outside world that answers every command arbitrarily and cancels at an arbitrary poll; the nested
  loops are methods proved to compute it. `traces.dfy`, `cancellation.dfy`, `trace_entries.dfy`,
  `announcements.dfy`, `scoring.dfy`, `conservation.dfy`, `reported_scores.dfy`, `report_texts.dfy` and
  `redaction.dfy` prove the shape of traces, what every entry and every event says, the event grammar, what
  the terminal event means, the scoring theorem, what the report carries and the noninterference of
  redacted data.
* **Validation and baking** (`validator.dfy`, `validation_meaning.dfy`, `duplicate_codes.dfy`,
  `preprocess.dfy`, `baking.dfy`, `bake_order.dfy`, `agent_references.dfy`).
  The code table threaded through three levels of methods, and the in-place walk over file references,
  whose slots are laid out flat in walk order.
* **The server as a step system** (`state_manager.dfy`, `lifecycle.dfy`, `server.dfy`,
  `server_safety.dfy`, `idle_shutdown.dfy`, `cancel_reach.dfy`, `builder_loads.dfy`,
  `submitted_reports.dfy`). Classes for the two managers, one method per critical section; `Apply` interleaves
  handlers, run goroutines, submissions, event streams and timer callbacks that may have fired and still
  wait for the lock. Checking `CanMutate` and landing a load are two steps. Timer safety, wake-ups and
  the two gates survive that gap; exclusion does not, and holds exactly as long as loads land with
  `CanMutate` true.
* **The elevation RPC** (`elevation.dfy`, `elevation_safety.dfy`, `elevation_mismatch.dfy`,
  `elevation_progress.dfy`). One client, one worker, two message streams; calls overlap, are given up,
  and leave decoders behind that compete for later replies.
* **Event streams** (`events.dfy`, `event_delivery.dfy`, `termination_barrier.dfy`, `stream_endings.dfy`,
  `browser_stream.dfy`) and **convergence** (`execution_snapshot.dfy`, `app_state.dfy`, `convergence.dfy`,
  `stream_convergence.dfy`, `stale_snapshots.dfy`, `bounded_stream.dfy`, `dropped_events.dfy`,
  `server_observer.dfy`, `run_script.dfy`, `screens.dfy`). The broker and its barrier, the
  browser's deduplication, and a run published in three steps per callback while snapshots are fetched
  and applied at arbitrary times.

A class carries the source's mutable fields and a `View`; its methods state the whole new view. The
step systems work on these views, so what a method computes is what the interleavings are about.

## What turned out otherwise

* Run-cancelled need not cancel anything: with an empty last section, which validation rejects, a run can
  be cancelled with no assertion left. `Cancellation.RunCancelledMeansCancelled` says that the last
  section is all that matters: run-cancelled implies a cancelled assertion in every world exactly when it
  is not empty.
* A run can start on a playbook that an agent's validation rejects: a playbook named on the builder's
  command line is validated in the builder's mode (internal/runner/runner.go:116-119). What the gate keeps
  is the verdict of the validation made at the load (`ServerSafety.GatesAtTheDoor`), which is the agent's
  for every load by a handler (`ServerSafety.AgentGate`). `BuilderLoads.BuilderOnlyExactly` says which
  playbooks these are, and `BuilderLoads.BuilderRunsWhatAgentsReject` runs one.
* Two runs can be active at once: a load that passed its `CanMutate` check before a run started may land
  during it (`ServerSafety.LoadGapAdmitsTwoRuns`); a load breaks exclusion exactly when it lands in an active
  status (`ServerSafety.LandingBreaksExclusionExactly`).
* In that gap a first run goes on that no cancel request and no shutdown ever reaches
  (`CancelReach.LoadGapLosesTheFirst`).
* Stop can leave an idle timer scheduled: the callback of an idle timer that fired before a client came and
  went clears the handle of the timer armed after it. `IdleShutdown.LetsGoExactly` says exactly when a handle
  is lost, `IdleShutdown.TimerOutlivesStop` loses one. The callback then finds the manager stopped and does
  nothing.
* Before an assertion completes, the browser can fall behind the server with every event delivered: a
  snapshot fetched before the assertion started and applied after its start was shown takes the row from
  running back to pending. The merge guards only finished rows. Every run in which an assertion starts has
  such an interleaving (`StaleSnapshots.AlwaysAgreesExactly`), and `SnapshotAgreesExactly` and
  `SnapshotKeepsStartsExactly` say exactly which snapshots do this. Completed rows are never affected.
* A full buffer can lose any completion of any run (`DroppedEvents.CompletionCanBeLost`).
  `DroppedEvents.ShownExactly` says exactly when a completion reaches the browser: if the buffer had room at
  its own broadcast, whatever else was dropped, or if a snapshot that reflects it is applied.
* An agent accepts playbooks that are not fully baked: it does not look at the gather scripts of pre- and
  post-commands, which baking replaces (`AgentReferences.AcceptedIsBakedExactly`).
* A call after one that was given up can be handed the other's reply; `ElevationMismatch.MismatchExactly`
  says exactly when.
* `GenerateReport` fills title and date into the playbook's own front matter map, so later reports of
  the same loaded playbook print the first one's date; `Report.DateSticks` says exactly when that shows.

## Model

| member | source | states |
|---|---|---|
| `Engine.EvaluateExitCode` | director/director.go:161-185 | the verdict of the exit code is that of the first matching rule, otherwise 1 for exit code zero and -1 for any other |
| `Engine.Evaluate` | director/director.go:161-198 | the verdict by cases: a set stderr rule that decides, otherwise a set stdout rule that decides, otherwise the first exit code rule whose range holds the exit code, otherwise whether that code is zero |
| `Director.VerdictByCases` | director/director.go:161-198 | the verdict the run semantics uses is the one of these cases |
| `Director.ContributionByCases` | director/director.go:119-206 | a command adds its fail score on an error or a failing verdict, its pass score on a passing one, nothing otherwise; the defaults are 1 and -1 |
| `Engine.AppendOutputs` | director/director.go:145-159 | an excluded command adds one redaction mark whatever its result; any other adds its stdout alone, or with a stderr both under their headings, an empty stdout left out |
| `Engine.VisibleContext` | director/director.go:268-296 | a gathered key is kept, with its value, exactly when no gather of a pre-command, a command or a post-command of the assertion excludes it |
| `Director.ShownKeys` | director/director.go:268-296 | the context the run semantics shows is the gathered one without exactly these keys |
| `TraceEntries.TraceTold` | director/director.go:81-252 | every entry of every trace, told from the commands' replies: score, verdict and pass mark, the shown context, the log of every command of every phase, the outputs, and an end after the start |
| `Announcements.EventsTellTheTrace` | director/director.go:54-325 | all events of a run but the section starts, in order and field by field: for every entry its start, the failures of its pre- and post-commands and its completion, and a terminal event that hands over the trace and, on completion, the report |
| `Engine.RunSide` | director/director.go:94-116 | the pre- or post-command loop: polls, ticks, logs, warnings and context after it are those of the run semantics, stopping at the first cancelled poll |
| `Engine.RunMain` | director/director.go:118-207 | the main-command loop: score, outputs, logs and context after it are those of the run semantics, errors counting as failures |
| `Engine.RunAssertion` | director/director.go:81-252 | one assertion: exactly its start event, warnings and one completion, and its trace entry, with zero scores in the trace when cancelled in flight |
| `Engine.RunSection` | director/director.go:60-79 | one section: where it halts and what it leaves for unwinding |
| `Engine.UnwindRemaining` | director/director.go:328-367 | every assertion from the halting point on is entered and announced as cancelled, in the open section and in every later one |
| `Engine.RunWithObserver` | director/director.go:27-325 | trace and observer events of the nested loops are those of the run semantics, for every outside world and every moment of cancellation |
| `Traces.TraceCompleteness` | director/director.go:60-80 | the trace has one entry per section and per assertion in playbook order; statuses are passed or failed up to some point and cancelled after it |
| `Traces.ObserverGrammar` | director/director.go:54-81 | every run's events are accepted by the event automaton; completions agree with the trace in order, code and status; exactly one terminal event, at the end, and one run start, at the beginning |
| `Traces.TerminalEventMeaning` | director/director.go:303-322 | run-complete implies no cancelled assertion; if the last section is not empty, run-cancelled is the last event exactly when some assertion was cancelled |
| `Cancellation.RunCancelledMeansCancelled` | director/director.go:60-65 | run-cancelled implies a cancelled assertion in every outside world exactly for the playbooks without sections or with a non-empty last one |
| `Cancellation.EmptyLastSectionCancelsNothing` | director/director.go:62-65 | for every playbook with an empty last section a cancellation at the poll before it ends the run as cancelled with every assertion passed or failed |
| `Cancellation.EmptySectionCancelsNothing` | director/director.go:62-65 | the smallest instance: a single empty section |
| `Conservation.ValidRunCancelledExactly` | director/director.go:303-366 | on a validated playbook the terminal event is run-cancelled exactly when some assertion was cancelled, and run-complete otherwise |
| `Traces.FinalStanding` | director/director.go:317-366 | totals equal the counted statuses on normal completion and are zero otherwise; what ran is exactly the passed and failed prefix |
| `PlaybookTypes.MinPassingScore` | playbook/playbook_types.go:15-30 | the accumulating loop computes the default pass mark: the sum of the pass scores, or 1 when that is zero |
| `Scoring.TraceScored` | director/director.go:119-206 | every finished entry of every trace carries the sum of its commands' contributions and passed exactly when that reaches the pass mark |
| `Scoring.TotalBound` | playbook/playbook_types.go:15-53 | with sensible scores the total never exceeds the sum of the pass scores, and reaches it exactly when every command passes |
| `Scoring.PassesWhenAllCommandsPass` | director/director.go:119-254 | with no pass mark set, a command, pass scores of at least 1 and lower fail scores, a finished assertion passed exactly when every command's final verdict is pass |
| `Report.WriteExecutionLogs` | report/report.go:104-110 | the log text of a list of command logs is theirs in order, each redacted as its command asks |
| `Report.ShouldShowEvidence` | report/report.go:205-212 | evidence is shown exactly when some output is more than blanks, a redaction mark or a heading |
| `Report.EvidenceIsAllOrNothing` | report/report.go:199-233 | outputs without material evidence leave no trace in an assertion's markdown; otherwise all of them are shown in order between two texts that do not depend on them |
| `Report.GenerateReport` | report/report.go:48-134 | log, markdown and report map of the loops are those of the report semantics; start, end and statistics are the trace's; a front matter map is left with title and date filled in, the playbook otherwise as it was |
| `Report.EvidenceIs` | report/report.go:189-197 | evidence is something other than blanks, a redaction mark or a heading |
| `ReportTexts.LogTells` | report/report.go:90-187 | in the log of any trace every logged command tells its script, its error and its outputs, excluded ones as marks |
| `ReportTexts.CommandsInOrder` | report/report.go:104-110 | the text of a command follows those of the commands before it at once |
| `ReportTexts.MarkdownTells` | report/report.go:199-233 | in the markdown of any trace every assertion stands with its title and description and the verdict of its entry |
| `ReportTexts.FrontmatterExactly` | report/report.go:60-72 | the front matter printed is the playbook's own, with a title and a date where it sets none |
| `Conservation.ReportMapExactly` | report/report.go:111-119 | of any trace, of invalid playbooks and cancelled runs too: a code is in the report exactly when some entry has it, and the report carries the times, verdict, score, pass mark and context of the last such entry |
| `Report.DateSticks` | report/report.go:60-72 | after any number of reports a further one prints its own day exactly when the playbook has no front matter, or sets that very date, or sets none and was first reported on the same day |
| `Conservation.ReportEntries` | report/report.go:90-127 | the report map is the fold of the trace's entries in order |
| `Conservation.EntriesCount` | report/report.go:111-119 | with distinct codes the map has one entry per assertion with that assertion's start, end, verdict, score, pass mark and context, no other entry, and as many passed entries as passed assertions |
| `Conservation.ValidTraceDistinct` | playbook/validator.go:155-171 | no two entries of the trace of a cleanly validated playbook have the same code |
| `Conservation.ReportConservation` | report/report.go:90-127 | on a validated playbook a completed run's report has exactly one entry per assertion, field by field that of the trace, as many passed ones as the passed statistic, passed plus failed is the number of assertions, and start, end and statistics are the trace's |
| `ReportedScores.EveryAssertionIsReported` | report/report.go:111-119 | on a completed run of a validated playbook every assertion is in the report: its score the sum of what its commands contribute, its minimum the pass mark, passed exactly when the one reaches the other, its context what was gathered without the excluded keys |
| `ReportedScores.ReportedPassMeansAllPass` | report/report.go:111-119 | with no pass mark set and sensible scores, reported as passed exactly when every command passed |
| `ReportedScores.ReportedContexts` | report/report.go:111-119 | of any run the context of every report entry is that of an assertion with its code, gathered without the keys some command of it excludes, empty when it did not finish |
| `Redaction.AgreementMeans` | director/director.go:145-159 | agreement of two outside worlds is about errors, rule verdicts, exit codes, unexcluded outputs, emptiness of excluded ones and the context keys that no gather of any phase excludes, and nothing else |
| `Redaction.EntriesShowExactly` | director/director.go:268-296 | every finished entry of every trace shows what was gathered but for the keys a gather of a pre-command, command or post-command excludes; any other entry shows nothing |
| `Redaction.ReportIsPublic` | report/report.go:90-197 | log, markdown and structured report are functions of the public part of the trace |
| `Redaction.NonInterference` | director/director.go:145-296 | two runs that agree on what is not excluded emit equal observer events, but for the raw command logs inside the trace handed over at the end, and produce equal logs, markdowns and structured reports |
| `Validator.ValidateAssertion` | playbook/validator.go:151-253 | reports the errors of one assertion against the shared table, and records a new non-blank code in it |
| `Validator.ValidateSection` | playbook/validator.go:114-148 | reports the errors of a section and threads the shared table through its assertions |
| `Validator.CheckAgent` | playbook/validator.go:173-247 | reports exactly the remaining file references, in the order of the commands |
| `Validator.ValidateDestination` | playbook/validator.go:55-92 | no error exactly for an absent or folder destination and for an https one with a non-blank https URL and a known format; errors only at the destination's own settings |
| `Validator.Validate` | playbook/validator.go:38-111 | the error list of the whole playbook, with one table for all sections |
| `ValidationMeaning.ValidationExactly` | playbook/validator.go:38-253 | validation returns exactly the errors the playbook deserves, told from the playbook alone, each once and in the order of the document; no other list does |
| `ValidationMeaning.TrimmedIs` | playbook/validator.go:41-53 | trimming leaves the part between the outermost characters that are not blank |
| `DuplicateCodes.CodeErrorsAreExact` | playbook/validator.go:100-171 | the code errors among all errors are those the flat list of codes deserves, in order, with or without the agent's checks |
| `DuplicateCodes.DuplicateCount` | playbook/validator.go:161-171 | duplicate errors number the non-blank codes minus the distinct ones, over all sections |
| `DuplicateCodes.DuplicatesAreExact` | playbook/validator.go:161-171 | an error stands at exactly the repeated occurrences and cites the first occurrence in playbook order |
| `DuplicateCodes.NoCodeErrors` | playbook/validator.go:155-171 | no code error at all exactly when all codes are non-blank and pairwise distinct |
| `AgentReferences.AgentAcceptsExactly` | playbook/validator.go:173-247 | an agent accepts a playbook exactly when a builder does and no file reference is left in a command, its rules and gathers, or in the scripts of a pre- or post-command |
| `AgentReferences.HiddenGathersDoNotMatter` | playbook/validator.go:173-189 | playbooks that differ only in the gathers of pre- and post-commands have the same errors in either mode |
| `Preprocess.ProcessSlot` | internal/transpile/preprocess.go:90-97 | one reference: transpiled and cleared, left alone when empty, or left as it is with an error |
| `Preprocess.ProcessExec` | internal/transpile/preprocess.go:89-117 | one execution: shell function, function and gathers baked in this order up to the first failure |
| `Preprocess.ProcessEvalRule` | internal/transpile/preprocess.go:119-129 | one rule baked or left with an error |
| `Preprocess.ProcessAssertion` | internal/transpile/preprocess.go:64-87 | one assertion: its slots in walk order baked up to the first failure, all else unchanged |
| `Preprocess.ConfigCell.Preprocess` | internal/transpile/preprocess.go:53-62 | the in-place walk leaves the flat bake of the configuration's slots and nothing else changed, whether it succeeds or stops |
| `Baking.PreprocessMeaning` | internal/transpile/preprocess.go:53-129 | everything before the first failing reference in walk order is baked, it and all after are untouched, and exactly the references reached are transpiled; success exactly when none fails |
| `BakeOrder.BakedInOrder` | internal/transpile/preprocess.go:53-129 | script by script, addressed by its place in the document: a pass that succeeds inlines every one; one that fails inlines all before the first that does not transpile and leaves it and all after as they were |
| `Baking.SamePlaybook` | internal/transpile/preprocess.go:53-129 | a playbook is determined by its slots and the rest of it, so a bake changes no more than its slots |
| `Baking.SecondPassDoesNothing` | internal/transpile/preprocess.go:53-129 | after a successful pass a second one changes nothing and never calls the transpiler |
| `Baking.BakedValidatesAlike` | playbook/validator.go:38-111 | validating the baked playbook as an agent returns exactly the error list of validating the original as a builder |
| `AgentReferences.AcceptedIsBakedExactly` | internal/transpile/preprocess.go:106-114 | in a playbook an agent accepts the references that remain are exactly those of the gather scripts of pre- and post-commands |
| `BuilderLoads.AgentAcceptsHalfBaked` | playbook/validator.go:173-189 | a playbook that an agent accepts although a gather script of a pre-command is still a file |
| `StateManagement.StateManager.CanMutate` | internal/server/state.go:102-110 | true exactly when no run or submission status is active |
| `StateManagement.StateManager.SetPlaybook` | internal/server/state.go:113-224 | the whole new state of a load, destinations for both modes included, with the validation flag exactly when there were errors |
| `StateManagement.StateManager.SetLoadError` | internal/server/state.go:227-246 | a failed load empties the playbook and keeps report and cancellation flag |
| `StateManagement.StateManager.UnloadPlaybook` | internal/server/state.go:249-286 | refused while active, otherwise the initial state but for the run that a cancel would reach |
| `StateManagement.StateManager.UpdateDestination` | internal/server/state.go:328-359 | refused exactly while active or, with a command-line folder, for another source or another resolved path; otherwise the given settings replaced |
| `StateManagement.StateManager.StartRun` | internal/server/handlers_execution.go:200-277 | the four outcomes of a run request in the order of the checks, no change unless it starts, and field by field the state of a started run, whose cancel function is now the one held |
| `StateManagement.ElevationIsForSome` | playbook/playbook_elevation.go:6-51 | elevation is asked for exactly when some command of any phase, in any section, requires it |
| `StateManagement.StateManager.ElevationDone` | internal/server/handlers_execution.go:294-333 | elevation failure returns to loaded with an error; success leaves a cancelling run cancelling |
| `StateManagement.StateManager.FinishRun` | internal/server/handlers_execution.go:341-388 | the final critical section of a run: cancelled, completed or awaiting submission |
| `StateManagement.StateManager.RequestCancel` | internal/server/handlers_execution.go:412-441 | which run's context a cancel request goes on to cancel |
| `StateManagement.StateManager.StartSubmit` | internal/server/handlers_report.go:160-217 | the submission gate: a report is sent only from an inactive, uncancelled state with a destination |
| `StateManagement.StateManager.FinishSubmit` | internal/server/handlers_report.go:229-263 | the end of a submission; success removes exactly the earlier submission errors |
| `StateManagement.OthersInOrder` | internal/server/handlers_report.go:229-263 | removing them goes list by list, so all other errors stay in their order |
| `StateManagement.OthersStay` | internal/server/handlers_report.go:229-263 | no other error is lost or doubled, and no submission error stays |
| `Lifecycle.LifecycleManager.OnClientConnect` | internal/server/lifecycle.go:62-72 | counts the client and disarms the idle timer |
| `Lifecycle.LifecycleManager.OnClientDisconnect` | internal/server/lifecycle.go:74-90 | counts down, and arms a new idle timer when all is quiet |
| `Lifecycle.LifecycleManager.OnExecutionStateChange` | internal/server/lifecycle.go:92-101 | arms the idle timer when all is quiet and none is armed |
| `Lifecycle.LifecycleManager.OnGracePeriodExpired` | internal/server/lifecycle.go:103-113 | ends the grace period for good, and arms the idle timer exactly when all is quiet and none is armed |
| `Lifecycle.LifecycleManager.OnIdleTimeoutExpired` | internal/server/lifecycle.go:115-129 | decides shutdown exactly when not stopped, not disabled, without clients and without active status |
| `Lifecycle.LifecycleManager.Stop` | internal/server/lifecycle.go:143-156 | stops both timers; a callback that has fired still runs |
| `Server.ActiveHasCauseKept` | internal/server/handlers_execution.go:232-388 | an active status always has a run or submission between its first and last critical section, whatever interleaves |
| `ServerSafety.LifecycleSafeKept` | internal/server/lifecycle.go:62-156 | the client count equals the live event streams, and an armed idle timer means grace over, no clients, not stopped, not disabled, its callback pending |
| `ServerSafety.ClampNeverTaken` | internal/server/lifecycle.go:74-80 | in every reachable state with a live event stream the count is exact and at least one, so the clamp at zero is never taken |
| `ServerSafety.ShutdownIsJustified` | internal/server/lifecycle.go:115-129 | in every reachable state only an idle callback, stale or not, decides shutdown, and only with no client and no active status in its own critical section |
| `ServerSafety.NoLostWakeupKept` | internal/server/lifecycle.go:62-129 | no step of any handler, run, submission or timer loses a wake-up |
| `ServerSafety.GraceAlwaysEnds` | internal/server/lifecycle.go:103-113 | in every reachable state, unless the manager is stopped or disabled, the grace period is over or its callback is pending; a stopped manager holds no timer |
| `ServerSafety.NoWakeupIsEverLost` | internal/server/handlers_execution.go:294-393 | in every reachable state with no client and no active status, of a manager neither stopped nor disabled, the idle callback or the grace period's is pending, shutdown was requested, or something in flight still owes its notice |
| `IdleShutdown.TimersShutDown` | internal/server/lifecycle.go:103-129 | from every such state in which nobody owes a notice, timers running out are enough to have shutdown requested |
| `IdleShutdown.LetsGoExactly` | internal/server/lifecycle.go:115-129 | a step lets go of a timer that is still scheduled exactly when it is the callback of an earlier idle timer that finds a new one armed |
| `IdleShutdown.StopReachesAll` | internal/server/lifecycle.go:143-156 | Stop leaves nothing scheduled as long as every scheduled timer is held |
| `IdleShutdown.TimerOutlivesStop` | internal/server/lifecycle.go:115-156 | an interleaving of a few steps after which Stop leaves an idle timer scheduled |
| `CancelReach.GrantedCancelReaches` | internal/server/handlers_execution.go:412-441 | in every reachable state, the load gap included, a cancel request that is granted goes to the latest run: whatever comes then, that run's context is or will be cancelled, and its end leaves a cancelled state with an aborted report that is not submitted |
| `CancelReach.CancelReachesWhatRuns` | internal/server/handlers_execution.go:412-441 | when all loads land with CanMutate true, that run is the one in flight |
| `CancelReach.ShutdownReaches` | internal/server/server.go:244-248 | the cancel at shutdown reaches the latest run at once |
| `CancelReach.LoadGapLosesTheFirst` | internal/server/handlers_playbook.go:32-111 | in the gap a load leaves, a first run stays in flight that nothing will ever cancel |
| `CancelReach.NeverCancelled` | internal/server/handlers_execution.go:254 | a run that was not cancelled when a later one started never is, whatever comes |
| `ServerSafety.GatesKept` | internal/server/handlers_execution.go:200-259 | the validation made at the load of every started run's playbook returned no errors, and every submitted report was not aborted, loads landing at any moment and in either mode included |
| `ServerSafety.GatesAtTheDoor` | internal/server/handlers_report.go:177-216 | in every reachable state the load's validation of a playbook whose run would start returned no errors, and a report that would be sent is not of a cancelled run |
| `ServerSafety.LoadedStartsExactly` | internal/server/state.go:216-223 | a playbook that lands can be started right away exactly when its load's validation returned no errors |
| `ServerSafety.AgentGate` | internal/server/handlers_playbook.go:110-111 | as long as all loads are the handlers', every run that ever started or could start has a playbook without errors for an agent |
| `BuilderLoads.BuilderOnlyExactly` | internal/runner/runner.go:116-119 | a load in the builder's mode starts a playbook that an agent rejects exactly when the builder finds nothing and a reference is left where an agent looks |
| `BuilderLoads.BuilderRunsWhatAgentsReject` | internal/runner/runner.go:116-119 | a one-command playbook that the builder's server runs and an agent rejects |
| `SubmittedReports.UnseenMeansClean` | internal/server/handlers_execution.go:337-345 | a run whose context is not cancelled at finalisation saw no cancellation at any poll and cancelled no assertion |
| `SubmittedReports.SubmittedReportsAreClean` | internal/server/handlers_report.go:177-216 | under any interleaving whatever is submitted is the report of a run whose trace holds no cancelled assertion |
| `ServerSafety.ExclusiveKept` | internal/server/handlers_execution.go:232-388 | when loads land only with CanMutate true, a step keeps: active exactly when one run or submission is in flight, never two |
| `ServerSafety.LandingBreaksExclusionExactly` | internal/server/handlers_playbook.go:32-111 | a load that lands breaks exclusion exactly when the status is active at that moment |
| `ServerSafety.AlwaysSafe` | internal/server/lifecycle.go:62-156 | timers, wake-ups, causes and gates hold after any sequence of critical sections |
| `ServerSafety.MutualExclusion` | internal/server/state.go:102-110 | after any sequence whose loads land with CanMutate true, active means exactly one run or submission in flight |
| `ServerSafety.LoadGapAdmitsTwoRuns` | internal/server/handlers_playbook.go:32-111 | the gap between CanMutate and SetPlaybook admits two runs at once: the sequence that does it |
| `Elevation.Client.Send` | internal/elevation/client.go:93-119 | the critical section of Run and Ping: refusal, number, message, and what an encoding failure leaves |
| `Elevation.Client.CheckResponse` | internal/elevation/client.go:129-158 | no error exactly for a reply with the call's own identifier, no error text and a result, which is then returned; the mismatch error exactly when another identifier came; a result only ever from the call's own reply |
| `Elevation.Client.CheckPong` | internal/elevation/client.go:180-188 | no error exactly for a pong with the ping's own identifier, and the unexpected-reply error exactly for any other message that came |
| `Elevation.Client.Close` | internal/elevation/client.go:193-205 | first close sends shutdown and hangs up, later ones do nothing |
| `Elevation.Worker.Receive` | internal/elevation/worker.go:84-131 | one round of the message loop: a goroutine, a pong, an error reply or the end |
| `Elevation.Worker.Complete` | internal/elevation/worker.go:100-113 | the end of an execution: its job gone, its reply sent under its own identifier |
| `ElevationSafety.OrderedKept` | internal/elevation/worker.go:84-113 | requests wait in order behind everything taken, and nothing executing or done shares an identifier, whatever step comes |
| `ElevationSafety.AcceptedReplyAnswers` | internal/elevation/client.go:137-158 | an accepted reply carries the result of executing the request of the very call that accepts it |
| `ElevationSafety.RpcCorrelation` | internal/elevation/client.go:93-159 | under any interleaving of concurrent, cancelled and orphaned calls, a Run that returns without error returns the result of executing its own request, which was executed once |
| `ElevationSafety.RpcConservation` | internal/elevation/client.go:107-188 | while the connection is open pending decoders equal requests queued, executing or answered but unread |
| `ElevationSafety.BoundedKept` | internal/elevation/client.go:107-188 | until the client hangs up or its decoder fails, open or not, there are never more messages under way than pending decoders |
| `ElevationProgress.FreshRunReturns` | internal/elevation/client.go:93-159 | on an open connection on which nobody reads, an undisturbed Run returns the result and the error text of executing its request |
| `ElevationProgress.FreshPingReturns` | internal/elevation/client.go:161-191 | likewise a Ping is answered |
| `ElevationProgress.ErrorIsOfOwnRequest` | internal/elevation/client.go:147-153 | under any interleaving a Run that returns the worker's error returns error text and result of executing its own request |
| `ElevationProgress.WaitersReturn` | internal/elevation/client.go:125-135 | once the connection is down every waiting call can return, with an error |
| `ElevationProgress.ClosedForGood` | internal/elevation/client.go:193-205 | after Close the connection is down for good, no call begins any more, and the shutdown message is the last one sent |
| `ElevationProgress.CloseStopsTheWorker` | internal/elevation/worker.go:84-131 | closing stops the worker, at the latest when it has taken what is queued |
| `ElevationMismatch.MismatchExactly` | internal/elevation/client.go:137-143 | on an open connection a new call can see another call's reply exactly when some other decoder is still reading at its start |
| `ElevationMismatch.SequentialCallsNeverMismatch` | internal/elevation/client.go:137-143 | when calls are made one at a time and none is given up, no call ever takes the mismatch branch, on a broken connection neither |
| `Events.EventBroker.Subscribe` | internal/server/events.go:70-77 | a new open channel under a fresh handle |
| `Events.EventBroker.Unsubscribe` | internal/server/events.go:80-88 | the channel leaves and is closed, once; nothing else changes |
| `Events.EventBroker.Broadcast` | internal/server/events.go:91-112 | the loop offers the event with the next identifier to every subscriber, dropping it only where the buffer is full; no send reaches a closed channel |
| `Events.EventBroker.BroadcastTermination` | internal/server/events.go:116-151 | the event to everyone, and a wait group that counts the subscribers less those with a full buffer |
| `Events.WaitGroup.Done` | internal/server/events.go:129-134 | a subscriber counts down once however often its callback runs |
| `Events.EventStream.Take` | internal/server/events.go:215-218 | the next buffered event in hand, off the channel |
| `Events.EventStream.Handle` | internal/server/events.go:219-238 | the event in hand is written and acknowledged, or skipped and acknowledged when it does not marshal; a termination event ends the stream |
| `EventDelivery.OrderedDelivery` | internal/server/events.go:70-112 | for any mix of subscribe, unsubscribe, broadcast, receive and flush, received plus buffered is a strictly increasing subsequence of the broadcasts since joining |
| `EventDelivery.MissedOnlyWhenFull` | internal/server/events.go:103-109 | an event is among what a subscriber got exactly when its buffer had room at the broadcast |
| `TerminationBarrier.AllBalancedKept` | internal/server/events.go:122-151 | every step keeps each barrier's counter at targets minus acknowledged, acknowledged being those full or flushed |
| `TerminationBarrier.BarrierCountsUnacknowledged` | internal/server/events.go:116-166 | for any number of barriers and subscribers the counter is the number of unacknowledged targets, never negative, and an early return means every target flushed or was full |
| `TerminationBarrier.OnlyHoldersDelay` | internal/server/events.go:215-240 | a connected target that has not acknowledged still has the event in hand or buffered |
| `StreamEndings.TerminationIsLast` | internal/server/events.go:211-240 | in every reachable state a written termination event is the last thing a stream has received and nothing more is taken; a subscriber that flushed a barrier's event has ended its stream with it |
| `BrowserStream.EventStreamManager.SetLastEventId` | webui/src/lib/api/events.ts:86-90 | the identifier only rises |
| `BrowserStream.EventStreamManager.Connect` | webui/src/lib/api/events.ts:125-183 | closes what was open, disarms the timer and opens a source or fails over |
| `BrowserStream.EventStreamManager.OnOpen` | webui/src/lib/api/events.ts:147-161 | an opened source ends reconnecting and resets the backoff |
| `BrowserStream.EventStreamManager.OnError` | webui/src/lib/api/events.ts:163-166 | an error fails over unless closed by hand |
| `BrowserStream.EventStreamManager.HandleConnectionFailure` | webui/src/lib/api/events.ts:238-251 | a failed connection schedules a reconnect unless closed by hand |
| `BrowserStream.EventStreamManager.Disconnect` | webui/src/lib/api/events.ts:280-288 | closed by hand: no source, no timer |
| `BrowserStream.EventStreamManager.HandleMessage` | webui/src/lib/api/events.ts:185-236 | parse, drop what was passed, raise the mark, dispatch |
| `BrowserStream.NeverStuck` | webui/src/lib/api/events.ts:125-288 | at every moment a stream that is not disconnected has an open source or an armed reconnect timer, never both |
| `BrowserStream.BackoffBounded` | webui/src/lib/api/events.ts:253-271 | over any input the delay of the next reconnect stays between the initial and the maximal one |
| `BrowserStream.DispatchedOnceInOrder` | webui/src/lib/api/events.ts:185-236 | over any input, reconnects and jumps included, positive identifiers are dispatched in strictly increasing order |
| `BrowserStream.DispatchedExactly` | webui/src/lib/api/events.ts:86-90 | a message is dispatched exactly when it parses and lies beyond everything dispatched and every jump |
| `ExecutionSnapshots.SnapshotStore.LoadTable` | internal/server/state.go:197-214 | one pending row per assertion of the playbook, in order |
| `ExecutionSnapshots.SnapshotStore.ResetAssertions` | internal/server/handlers_execution.go:245-252 | every row reset in place except its minimum score |
| `ExecutionSnapshots.SnapshotStore.StartAssertion` | internal/server/handlers_execution.go:60-68 | the first row with the code turns to running |
| `ExecutionSnapshots.SnapshotStore.CompleteAssertion` | internal/server/handlers_execution.go:86-98 | the first row with the code takes the result |
| `ServerObservers.ServerObserver.OnRunStart` | internal/server/handlers_execution.go:24-38 | the run's identifier in the snapshot, its state_change to every subscriber, the event's identifier recorded |
| `ServerObservers.ServerObserver.OnAssertionStart` | internal/server/handlers_execution.go:59-83 | run on its own, the three steps leave the table with the start, every subscriber offered its event and the snapshot with that event's identifier |
| `ServerObservers.ServerObserver.OnAssertionComplete` | internal/server/handlers_execution.go:85-117 | run on its own, the three steps leave the table with the result, every subscriber offered its event and the snapshot with that event's identifier |
| `ServerObservers.ServerObserver.OnOther` | internal/server/handlers_execution.go:119-173 | the other callbacks leave the table alone and record the identifier of their event |
| `AppStates.AppState.ReconcileExecution` | webui/src/lib/state/appState.svelte.ts:222-275 | a snapshot of another run replaces the table; one of the same run is merged row by row, finished entries yielding only to finished ones; the stream's mark rises with it |
| `AppStates.AppState.HandleAssertionProgress` | webui/src/lib/state/appState.svelte.ts:356-419 | the row of the code is replaced or added, in a new table when another run was on display |
| `AppStates.AppState.HandleStateChange` | webui/src/lib/state/appState.svelte.ts:314-354 | an idle status clears the display; an active run not on display gets a table of pending rows |
| `AppStates.LookupMerge` | webui/src/lib/state/appState.svelte.ts:248-264 | what a merge of distinct codes does to each code |
| `AppStates.MergeByCases` | webui/src/lib/state/appState.svelte.ts:248-264 | the same by cases and field by field: only a finished entry withstands, against unfinished ones, and a missing output leaves the current one |
| `StreamConvergence.PublishedKept` | internal/server/handlers_execution.go:24-117 | each of the three publishing steps keeps the snapshot equal to the fold of the callbacks up to LastEventID plus at most the one being published |
| `StreamConvergence.SnapshotIsFold` | internal/server/handlers_execution.go:24-117 | at every moment the snapshot's table is that fold, and exactly the callbacks with identifiers up to LastEventID, plus at most one, are in it |
| `StreamConvergence.EntryFromSnapshot` | webui/src/lib/state/appState.svelte.ts:248-264 | merging a snapshot of any age keeps what is known of an entry and leaves a completed one alone |
| `StreamConvergence.EntryFromEvent` | webui/src/lib/state/appState.svelte.ts:386-418 | delivering the next event keeps what is known of an entry and leaves a completed one alone |
| `StreamConvergence.CompletedStays` | webui/src/lib/state/appState.svelte.ts:253-264 | a completed assertion never leaves its terminal entry on the browser, under any step |
| `StreamConvergence.CompletedConverges` | webui/src/lib/state/appState.svelte.ts:222-275 | once all events are delivered, whatever snapshots were applied, an assertion completed on the server has the server's whole entry on the browser |
| `StreamConvergence.ConvergedAtTheEnd` | webui/src/lib/state/appState.svelte.ts:356-419 | at the end of a run in which every assertion completed the tables agree on every code |
| `StaleSnapshots.Converges` | webui/src/lib/state/appState.svelte.ts:222-275 | at every moment with all events delivered status, passed and score agree for every code, unless a snapshot had taken a row whose start was passed from running back to pending |
| `StaleSnapshots.SnapshotAgreesExactly` | webui/src/lib/state/appState.svelte.ts:258-260 | applying a snapshot at a quiet moment keeps the tables in agreement exactly when it shows as pending nothing the browser shows as running |
| `StaleSnapshots.SnapshotKeepsStartsExactly` | webui/src/lib/state/appState.svelte.ts:258-260 | at any moment a snapshot leaves every passed start on the table exactly when it shows none of those that run as pending |
| `StaleSnapshots.FirstStartCanRegress` | webui/src/lib/state/appState.svelte.ts:258-260 | for every run an interleaving at whose end all events are delivered, the server says running and the browser shows the first started assertion as pending |
| `StaleSnapshots.AlwaysAgreesExactly` | webui/src/lib/state/appState.svelte.ts:222-275 | the tables agree at every quiet moment of every interleaving exactly for the runs in which no assertion starts |
| `BoundedStream.Refines` | internal/server/events.go:103-109 | with room in the subscriber's buffer at every broadcast, a bounded dropping buffer does what the unbounded channel of the convergence results does |
| `DroppedEvents.ShownExactly` | internal/server/events.go:103-109 | for every run and interleaving, snapshots included: once everything under way has arrived, a completion shows exactly when the buffer had room at its own broadcast or a snapshot reflecting it was applied |
| `DroppedEvents.ShownByEventsExactly` | internal/server/events.go:103-109 | without snapshots a completion shows exactly when the buffer had room at its own broadcast, whatever other events were dropped |
| `DroppedEvents.CompletedConvergesInBounds` | internal/server/events.go:103-109 | a completion whose own broadcast had room converges to the server's entry |
| `DroppedEvents.LostForGood` | internal/server/events.go:105-108 | at any moment a completion without room and without an applied snapshot that reflects it neither shows nor is under way |
| `DroppedEvents.CompletionCanBeLost` | internal/server/events.go:105-108 | every completion of every run has an interleaving that loses it: all has arrived, the server has it, the browser does not show it |
| `BoundedStream.DeliveryIsTheStreams` | webui/src/lib/api/events.ts:199-208 | an event reaches the table's handlers exactly when the stream's deduplication dispatches it, and the marks agree |
| `RunScripts.RunsAreReady` | internal/server/handlers_execution.go:24-117 | every run of the engine on a validated playbook publishes at most one completion per code and nothing about it afterwards, for codes that all have a row |
| `RunScripts.RerunsHaveATable` | internal/server/handlers_execution.go:245-252 | a loaded playbook has the table a run needs, and so has every rerun |
| `RunScripts.ScreenShowsTheTrace` | internal/server/handlers_execution.go:85-117 | from engine to screen: when such a run is published and delivered, under any interleaving the browser shows for every assertion the status of the trace and the score, verdict and output its completion reported |
| `Screens.ScreenShowsTheReplies` | internal/server/handlers_execution.go:85-117 | from the commands' replies to the screen: when such a run is published and delivered the browser shows for every assertion the trace's status and verdict, the sum of what the logged commands contributed as its score, its pass mark, duration and outputs |
| `RunScripts.RunsAgreeExactly` | internal/server/handlers_execution.go:24-117 | an engine run on a validated playbook has an interleaving with a quiet disagreement exactly when some assertion starts in it |
| `RunScripts.EngineCompletionCanBeLost` | internal/server/events.go:105-108 | every completion the engine announces on a validated playbook can be lost to a full buffer |

## Left out

* Process execution, shells, temporary files, `goja`, `regexp` and `stripansi`: a command's result, error,
  rule verdicts and context updates are arbitrary values of the outside world, one per command and run.
* Transpilation, YAML and JSON codecs, time formats: parameters, or abstract strings.
* Go integers are unbounded here: no overflow of scores, of the 64-bit call counter or of event
  identifiers; identifiers beyond 2^53 in the browser.
* User name, operating system and architecture in trace and report; the rendered text of diagnostic
  paths, which stay structured.
* Pointers into nested slices: `Preprocess` passes values in and out of its helpers and updates one cell
  at the top, so aliasing between two parts of a configuration is not captured.
* Custom headers and secrets of a report destination, the destination defaults shown to the browser, and
  titles of assertions. Making a path absolute is an arbitrary partial function.
* HTTP transport, authentication, archives, signatures, and the wire format of event streams.
* Critical sections of the lifecycle manager read the server status under a second lock; the read is
  taken as part of the section.
* Real time: durations, backoff jitter, the ten-second wait of a cancel request and the timeout of the
  barrier, which may fire at any moment.
* The sends of one broadcast and receives by handlers overlap in the source; a broadcast is one step here,
  which is equivalent since each channel is touched once.
* Callbacks of closed event sources, which a browser does not deliver.
* A connection that fails in the middle of a message, and decoder errors on an open connection.
* Execution contexts inside the worker: stopping it cancels them all, and what a cancelled execution
  returns is arbitrary anyway.
* The global elevated runner across back-to-back runs, whose cleanup comes after the status has left
  active.
* The log lines, active assertion code, duration and status of a snapshot: log lines can be duplicated by
  the protocol, the others follow the last writer.
* Snapshots of another run or from before `OnRunStart` published the run, state changes that name
  another run and are broadcast during this one, and the resets of `fullSync`: they replace the table wholesale.
* Within the convergence claims: a browser that subscribes in the middle of a run or loses its connection
  during one; the delivery claims cover them.
* Texts of errors and warnings beyond what they name; the calls of status and reconnect listeners.
* Svelte components, theme, desktop launch, command-line flags, schema generation, `ElevationStats`: easy
  or plumbing.
