# Verification of the OSWorld-on-E2B adapter

This project models the parts of the adapter whose correctness depends on interleavings, failures or
long histories, and proves what they promise.

- **The relay's sandbox lifecycle** (`RelayMachine`, `RelayConservation`, `RelayInvariants`,
  `RelayTheorems`, `RelayCalls`, `GuestManagers`). `GuestManager` is a transition system with one step per
  critical section or await point: any number of replace, revert, save and stop coroutines, both locks, and
  every remote call succeeding or failing as the step chooses. Conservation of sandboxes, stop safety, lock
  order, deadlock freedom, generations and snapshot sources are invariants of all its runs. The class
  `GuestManager` has the source's fields and methods; each method is proved to leave the fields its
  contract names and to be a run of the machine.
- **The attempt ledger** (`Results`, `LedgerTheorems`, `AggregateTheorems`, `RunLedgers`). The append guard,
  the folds over the log and the aggregate are functions; the class `RunLedger` computes them in the
  source's loops.
- **Evidence** (`Evidence`, `LogRedaction`, `RedactedTexts`, `RelayRuns`). How the coordinator judges a
  finished attempt by a log that it redacts before it reads it. Here the relay's log and the ledger meet:
  exactly when redaction leaves the log readable, "success" proves that the relay killed every sandbox it
  created. `RelayRuns` builds the runs that show the limits.
- **End to end** (`EndToEnd`). The same for every result of every campaign history.
- **Campaigns** (`CampaignMachine`, `CampaignInvariants`, `CampaignPeak`, `CampaignEndings`,
  `CampaignSchedules`, `CampaignTheorems`, `RetryTheorems`, `Coordinators`). Passes of `execute_campaign`
  under a semaphore, over whole histories with crashes and resumes, and the retry loop around them.
  `Coordinators` holds the imperative form.
- **The contract's request cap** (`Contract`), a bound over all campaign histories that is exact.
- **The accessibility tree** (`SheetScan`, `Accessibility`, `SpreadsheetPaths`). The spreadsheet scan that
  replaces asking a billion cells, the bounded, failure-tolerant recursion around it, and which tables of a
  tree are scanned.
- **The patched checkout** (`PatchedCheckout`). All-or-nothing patching, verification and restoring.
- **Redaction** (`Redaction`). When the replacement loop leaves no sensitive value.

Three results are negative, and the code is modelled as it is:

- The user documentation says that re-running a campaign resumes its eligible tasks, and
  `resume_candidates` hands back an attempt that was planned and never started. The coordinator begins
  every attempt with PLANNED, which `append` refuses for such an attempt. A pass can therefore complete
  exactly when no task without a result is in that state (`CampaignTheorems.PassCanComplete`). A crash
  between the two events brings a ledger there (`CampaignTheorems.PlannedOnlyIsReachable`), and no later
  history leads out again (`CampaignTheorems.PlannedOnlyIsPermanent`).
- The redaction loop can leave a value, or put it together from its own marker. For one value, with angle
  brackets or without, the exact condition is `Redaction.ValueIsClearedIff`; for several values in any
  selection and order it is `Redaction.ValuesAreClearedIff`. For values without brackets it comes down to
  not being part of the word "redacted" (`Redaction.PlainValuesAreClearedIff`).
- The coordinator redacts the relay's log before it judges the cleanup by it. A sensitive value that occurs in
  "SANDBOX_CREATED" or "SANDBOX_CLEANUP_FAILED", or values that make two sandbox ids equal, can turn a leak
  into "success"; `LogRedaction.TrustworthyIffReadable` is the exact condition, `RedactedTexts.CreatedMisleads`
  an example. And while a replacement runs, "success" can miss one sandbox that came without a traffic token
  (`LogRedaction.SuccessCanMissTokenless`).

Assumptions: sandbox ids are fresh, and different ids are different non-empty texts; the relay's event log is
enabled and its writes succeed; no coroutine of the relay is cancelled; one coordinator works on a ledger at a
time, always with the same `max_attempts`, which the identity of the ledger fixes; an append is one atomic step
and a crash keeps the log. An attempt runs one relay, and where a valid attempt is taken as evidence
(`LogRedaction.ValidAttemptLeaksNothing`, `EndToEnd.ResultsLeakNothing`) redaction left that relay's log
readable in the sense of `LogRedaction.Readable`, or broke it altogether. Clocks, the network, child processes
and remote calls are parameters or choices of a step. Rewards are exact reals.

## Model

| member | source | states |
|---|---|---|
| RelayInvariants.RunKeepsInv | realkit/relay.py:73-250 | the whole invariant (locks, conservation, log, generations, sources, every coroutine's bookkeeping) survives any interleaving of any coroutines with any failures |
| RelayTheorems.SandboxIsInOnePlace | realkit/relay.py:93-250 | in every reachable state a sandbox ever created is in exactly one of: current guest, pending cleanup, killed, in the hands of the holder of the replace lock; pending has no duplicates |
| RelayTheorems.KillsOnlyRetiredSandboxes | realkit/relay.py:144-206 | a kill is never aimed at the current guest, at a killed or pending sandbox, or outside the replace lock |
| RelayTheorems.StoppedInstallsNothing | realkit/relay.py:193-206 | once the stop flag is set, no run installs a guest |
| RelayTheorems.NoGuestAfterSweep | realkit/relay.py:237-250 | after the replace-lock section of stop there is no guest in any later state |
| RelayTheorems.RacingCandidateIsReaped | realkit/relay.py:193-201 | a sandbox that is not the guest when stop is called never becomes it, and is killed or pending (not both) once the replace lock is free |
| RelayTheorems.KillCallsAreSteps | realkit/relay.py:144-159 | over any run the kill counter of an operation grows by the number of its calls of kill, successful or not |
| RelayTheorems.StopKillBound | realkit/relay.py:144-250 | over any continuation of its sweep a stop makes at most attempts calls of kill for each sandbox it found, pending or guest |
| RelayTheorems.ReplaceKillBound | realkit/relay.py:144-206 | over any whole run an operation that is not a stop makes at most attempts calls of kill |
| RelayTheorems.LockOrder | realkit/relay.py:78-91 | nothing requests a lock it holds, and nothing holding the short lock requests any |
| RelayTheorems.NoDeadlock | realkit/relay.py:161-250 | while an operation is unfinished, some operation can take a step |
| RelayTheorems.StepsRunDown | realkit/relay.py:144-250 | every step lowers a well-founded measure of its own operation and moves no other, so each operation takes finitely many steps |
| RelayTheorems.GenerationsHaveNoGaps | realkit/relay.py:185-206 | the k-th published guest has generation k although failed creations reuse numbers, and the guest is the last one published |
| RelayTheorems.GuestChanges | realkit/relay.py:185-250 | the guest changes only by installing a candidate recorded as ready, before any stop, or by the sweep of a stop |
| RelayTheorems.OutcomeTellsPublication | realkit/relay.py:185-206 | a replacement that raised published nothing, one that returned published exactly what it returned |
| RelayCalls.FinishedCalls | realkit/relay.py:185-250 | a finished stop never raised: it has set the flag and left no guest; a finished replacement or revert returned a guest it published or raised; a finished save returned an id or raised |
| RelayCalls.RaisedIffCause | realkit/relay.py:93-235 | a finished call raised if and only if on the way from the call one of these happened to it: its creation failed or came without a token, its candidate never became ready, it found the manager stopped before creating or publishing, it found no guest to save, or the capture failed |
| RelayTheorems.RevertStartsFromItsSnapshot | realkit/relay.py:208-235 | a revert to a saved name starts from a snapshot id recorded under that name and never from the template, unless that name or id is empty; any other revert starts from the template |
| GuestManagers.SpawnIs | realkit/relay.py:185-238 | each of the four calls comes in at its own first waiting point, with the source looked up, and changes nothing else |
| GuestManagers.GuestManager.KillSandbox | realkit/relay.py:144-159 | true exactly when one of the allowed attempts kills, with the matching event recorded; a run of the machine |
| GuestManagers.GuestManager.CleanupOrTrack | realkit/relay.py:161-167 | the sandbox is tracked by the outcome of its kill, with the matching event; a run of the machine |
| GuestManagers.TrackedMeans | realkit/relay.py:161-167 | tracking keeps all other sandboxes in their order; the one cleaned up is gone if it is dead and otherwise there once, at the end if it was not before |
| GuestManagers.GuestManager.Create | realkit/relay.py:93-142 | a guest only from a creation with a token that became ready; every other sandbox is cleaned up or tracked |
| GuestManagers.GuestManager.ReadGeneration | realkit/relay.py:187-190 | refuses when stopped, otherwise the next generation |
| GuestManagers.GuestManager.InstallUnlessStopped | realkit/relay.py:192-196 | installs the candidate and hands over the old guest, or neither when stopped |
| GuestManagers.GuestManager.Replace | realkit/relay.py:185-206 | from the call on: outcome, guest, generation, pending cleanup and stop flag for every combination of stop before, stop called during the creation, failed creation and failed kills |
| GuestManagers.GuestManager.Revert | realkit/relay.py:230-235 | from the call on: the seed of the new guest by the recorded names, the stop flag unchanged, and the rest as in a replacement |
| GuestManagers.GuestManager.Save | realkit/relay.py:208-228 | from the call on: the name is bound and recorded when there is a guest and the capture succeeds, nothing changes otherwise |
| GuestManagers.GuestManager.RaiseStopFlag | realkit/relay.py:238-239 | only the flag changes, without waiting for a replacement |
| GuestManagers.GuestManager.Sweep | realkit/relay.py:242-248 | takes over pending sandboxes and guest, in this order, and leaves none |
| GuestManagers.GuestManager.CleanupAll | realkit/relay.py:249-250 | exactly the sandboxes that cannot be killed are pending again |
| GuestManagers.GuestManager.Stop | realkit/relay.py:237-250 | from the call on: the flag is set, no guest is left, and exactly the swept sandboxes that no attempt kills stay pending |
| GuestManagers.StopLeavesSurvivors | realkit/relay.py:237-250 | after stop the pending sandboxes are those of the swept ones whose kills all failed, each once |
| Evidence.StatusTells | runner/campaign.py:48-69 | the status read from a log, by its lines alone: malformed exactly if unreadable, failed exactly if a cleanup failed, success exactly if some named sandbox was cleaned and each created one was |
| Evidence.ClassificationIsLegal | runner/campaign.py:264-309 | the event built from any observation satisfies the event constructor, carries the status read from the log, and is valid exactly when the child exited 0 in time and uninterrupted with one finite reward and a log that proves cleanup |
| Evidence.ReasonTellsWhy | runner/campaign.py:83-95 | the recorded reason occurs exactly when its own check is the first that failed |
| Evidence.SuccessMeansAllKilled | runner/campaign.py:48-69 | whenever the replace lock is free, the relay's log reads "success" exactly when no guest is left, a sandbox was cleaned and no cleanup gave up; then every created sandbox was killed |
| Evidence.SuccessMissesOnlyTokenless | realkit/relay.py:110-119 | in any reachable state whose log reads "success" there is no guest and nothing pending, and every created sandbox was killed except, while the replace lock is held, one without a CREATED record that its creator is killing on the way to raising |
| Evidence.FailureIsSticky | runner/campaign.py:55-56 | "failed" stays, even if stop recovers the sandbox later |
| LogRedaction.SuccessCanMissTokenless | realkit/relay.py:110-114 | that exception is reachable: a log reads "success" while a sandbox without a token is still being killed |
| LogRedaction.ReadingIsHonest | runner/campaign.py:264-265 | when redaction leaves the log readable, the redacted log reads "success" only if the log as written does |
| LogRedaction.TrustworthyIffReadable | runner/campaign.py:264-265 | for any redaction whose changes leave a "<": in every reachable state with the replace lock free, "success" read from the redacted log means that every created sandbox was killed, if and only if redaction hides every cleanup, or hides neither creations nor failures and keeps sandbox ids apart |
| LogRedaction.ValidAttemptLeaksNothing | runner/campaign.py:264-309 | a valid ledger event, judged by the redacted log of a relay stopped anywhere, implies: if redaction left that log readable, the relay has no guest, nothing pending, and killed every sandbox it created, except perhaps one without a CREATED record that the holder of its replace lock is killing |
| RedactedTexts.TrustworthyIffSpared | runner/campaign.py:98-108 | for the replacement loop and values that occur in no sandbox id: "success" is trustworthy if and only if some value occurs in "SANDBOX_CLEANED" or in a key of the record, or none occurs in "SANDBOX_CREATED" or "SANDBOX_CLEANUP_FAILED" |
| RedactedTexts.ApartIsReadAsWritten | runner/campaign.py:98-108 | a log in whose names, keys and sandbox ids no value occurs is read as it was written |
| RedactedTexts.CreatedMisleads | runner/campaign.py:264-265 | with the sensitive value "CREATED", a log of a relay that left a sandbox running reads "success", though as written it does not |
| RedactedTexts.RedactsEachPiece | realkit/preflight.py:154-157 | values without quotes are replaced in a file text by text, between its quotes |
| EndToEnd.ResultsLeakNothing | runner/campaign.py:264-309 | over every history of passes, crashes and resumes in which each child that exited 0 in time and uninterrupted left the log of some relay, stopped anywhere and redacted so that it stayed readable or became unparsable: every result is the reward of one observed attempt, whose relay has no guest, nothing pending, and killed all it created except perhaps one sandbox without a CREATED record that it was just killing; nothing is asked of the logs of timed-out, interrupted or failed children |
| RunLedgers.RunLedger.Create | realkit/results.py:178-200 | a ledger exactly for an empty run directory and an inventory without duplicates; a non-empty directory is the first refusal |
| RunLedgers.RunLedger.CheckAppend | realkit/results.py:218-239 | the checks in their order compute the specified refusal |
| RunLedgers.RunLedger.Append | realkit/results.py:218-246 | a refused event changes nothing and names its reason; an accepted one extends the log and the aggregate agrees with the new log |
| RunLedgers.RunLedger.LatestResults | realkit/results.py:255-261 | the loop computes the specified latest rewards |
| RunLedgers.RunLedger.ResumeCandidates | realkit/results.py:263-286 | the loop computes the specified candidates; a limit below one is refused |
| RunLedgers.RunLedger.CandidateFor | realkit/results.py:268-285 | the attempt a task resumes with, from its highest attempt and that attempt's last event |
| RunLedgers.RunLedger.GroupAttempts | realkit/results.py:289-293 | grouping gives the history of every attempt in the log and no other key |
| RunLedgers.RunLedger.CountMissing | realkit/results.py:303-307 | grouping the log by attempt and counting open histories gives the number of attempts that started and never ended |
| RunLedgers.RunLedger.CountReasons | realkit/results.py:294-302 | counting as the log is read gives the specified number for every reason that occurs |
| RunLedgers.RunLedger.SumRewards | realkit/results.py:308-321 | summing the dictionary in any order gives the sum along the inventory |
| AggregateTheorems.SumIsTheSum | realkit/results.py:308 | that sum is 0 for the empty dictionary and grows by exactly v when a task gets the reward v |
| Results.Score | realkit/results.py:321 | absent exactly without results, and otherwise the mean |
| RunLedgers.RunLedger.ComputeAggregate | realkit/results.py:288-322 | the loops compute the specified aggregate, whatever order dictionaries are read in |
| AggregateTheorems.EmptyAggregate | realkit/results.py:288-322 | a new ledger has no counts, no rewards and no score |
| AggregateTheorems.AppendCounts | realkit/results.py:288-307 | each accepted event adds one to the count of its kind; a started attempt is missing until it ends |
| AggregateTheorems.AppendCountsReasons | realkit/results.py:294-302 | an invalid end counts once more under its reason and no other event under any |
| AggregateTheorems.AppendRewards | realkit/results.py:255-321 | a valid end with reward v adds a valid task and v to the sum, or replaces the reward its task had |
| AggregateTheorems.AppendKeepsRewards | realkit/results.py:255-321 | no other event changes results, sum or score |
| AggregateTheorems.ScoreIsInRange | realkit/results.py:308-321 | there is a score exactly if there is a result, and when all rewards lie in a range so does the score, equal rewards being the score |
| LedgerTheorems.LegalMeans | realkit/results.py:74-93 | an event is let through exactly with a positive attempt, a known kind, and for a terminal one either a finite reward with proven cleanup and no reason, or one of the seven reasons and no reward |
| LedgerTheorems.MakersBuild | realkit/results.py:95-143 | the four makers name their attempt; a planned or started event carries nothing else, a valid end its reward and cleanup, an invalid one its reason and cleanup, and each is let through exactly when these are in order |
| LedgerTheorems.RejectionTells | realkit/results.py:74-93 | each refusal of the constructor occurs exactly when its check is the first that fails |
| LedgerTheorems.HistoriesHaveShape | realkit/results.py:228-239 | in every accepted log each attempt's history is a prefix of PLANNED, STARTED, TERMINAL |
| LedgerTheorems.LengthDecides | realkit/results.py:218-239 | the number of events an attempt has had decides which one it accepts; only PLANNED also needs a task without a valid result |
| LedgerTheorems.AttemptsAddUp | realkit/results.py:288-322 | planned = started + never started, started = terminal + missing |
| LedgerTheorems.TerminalsAddUp | realkit/results.py:294-302 | terminal = valid + the sum over all invalid reasons |
| LedgerTheorems.ResultsAreSound | realkit/results.py:255-261 | results belong to the inventory and are finite rewards of valid events; remaining tasks are never negative |
| LedgerTheorems.ResultIsTheOne | realkit/results.py:255-261 | with one valid event per task, the latest reward is the only one |
| LedgerTheorems.ResultsAddUp | realkit/results.py:255-261 | with one valid event per task, results count the valid events and their sum is the sum over all valid events |
| LedgerTheorems.AggregateAddsUp | realkit/results.py:288-322 | planned >= started >= terminal, missing = started - terminal, terminal = valid events + all invalid reasons, valid + remaining = tasks, the score is the mean; terminal = valid tasks + invalid reasons if and only if no task has two valid events, and then the reward sum is that of the valid events |
| LedgerTheorems.AppendAloneAllowsTwoValid | realkit/results.py:228-232 | appending alone lets a task end valid twice, the second reward hiding the first |
| LedgerTheorems.ResumeIsSound | realkit/results.py:263-286 | a candidate's task has no valid result, no later attempt, and accepts PLANNED when the attempt is new, STARTED when it was only planned |
| LedgerTheorems.ResumeIsComplete | realkit/results.py:263-286 | a task without a result is left out exactly when its latest attempt reached the limit and went past PLANNED |
| LedgerTheorems.CandidatesFollowInventory | realkit/results.py:268-286 | candidates are a duplicate-free subsequence of the inventory |
| LedgerTheorems.PlannedOnlyAttemptIsStuck | realkit/results.py:228-230 | running a resumed attempt is refused exactly when it was planned and not started |
| LedgerTheorems.AggregateIsOrderFree | realkit/results.py:288-322 | two accepted logs with the same events have the same counts, and when no task has two valid events also the same results, reward sum and score |
| CampaignInvariants.RunKeepsInv | runner/campaign.py:182-331 | permits, children, candidates and log agree after any moves of any passes, crashes included |
| CampaignInvariants.AtMostOneValidPerTask | runner/campaign.py:311-315 | over any history no task gets two valid terminal events, so every result is its task's only one |
| CampaignInvariants.ChildrenStayBounded | runner/campaign.py:182-262 | at most num_envs children are active, as many as there are running coroutines, and never more than the reported maximum |
| CampaignPeak.ReportedMaximumIsThePeak | runner/campaign.py:167-262 | the reported maximum of a pass is the previous one while there was no child, and else the larger of that and the largest number of children in any state of the pass so far |
| CampaignPeak.PeakIsReached | runner/campaign.py:249-262 | that largest number is the number of children in some state of the run |
| CampaignInvariants.AttemptsAreBounded | runner/campaign.py:187-248 | over any passes, resumes and crashes at most tasks * max_attempts attempts are ever started, or planned |
| CampaignTheorems.ScheduleIndependence | runner/campaign.py:187-331 | two complete passes over one ledger with the same outcomes end with the same events, results and aggregate, whatever the interleavings and semaphores |
| CampaignTheorems.PassRunsThrough | runner/campaign.py:187-317 | without planned-only tasks every append is accepted, some coroutine can always go on until all have ended, and that takes exactly three moves each |
| CampaignTheorems.PassCanComplete | runner/campaign.py:187-331 | a pass over a reachable ledger can complete if and only if no task without a result is planned-only |
| CampaignTheorems.PlannedOnlyBlocksThePass | runner/campaign.py:193 | with such a task no schedule and no outcomes complete the pass |
| CampaignTheorems.PlannedOnlyIsReachable | runner/campaign.py:193-248 | a coordinator that crashes after PLANNED leaves a planned-only task |
| CampaignTheorems.PlannedOnlyIsPermanent | realkit/results.py:228-235 | no history of passes, crashes and resumes makes a planned-only task startable again |
| RetryTheorems.PassLeavesNoPlannedOnly | runner/campaign.py:187-331 | a completed pass can be followed by another |
| RetryTheorems.PassUsesAttempts | runner/minimax_sample.py:221-245 | a completed pass lowers the attempts that remain by at least one per candidate |
| RetryTheorems.PassesRunOut | runner/minimax_sample.py:221-245 | from any resumable ledger, max_attempts completed passes leave no candidate |
| RetryTheorems.PassAddsAttempt | runner/minimax_sample.py:221-245 | the k-th pass of a new campaign runs attempt k of exactly the tasks not yet valid |
| RetryTheorems.ResultsAreFirstValid | runner/minimax_sample.py:246-250 | a finished campaign has for each task the reward of its first valid outcome, and a result exactly where there is one |
| Coordinators.PlanTurn | runner/campaign.py:187-193 | entering the semaphore and recording PLANNED is the machine's move |
| Coordinators.StartTurn | runner/campaign.py:248-251 | recording STARTED and counting the child is the machine's move |
| Coordinators.FinishTurn | runner/campaign.py:260-309 | uncounting, judging and recording the end of a child is the machine's move |
| Coordinators.RunPass | runner/campaign.py:311-317 | taking turns in any order is an undisturbed run, and stops only when all have ended or one has failed |
| Coordinators.CancelAll | runner/campaign.py:318-321 | cancelling the others is a run of the machine with one move for each busy coroutine, which ends its child as interrupted or leaves it unborn; afterwards none is busy |
| Coordinators.ExecuteCampaign | runner/campaign.py:111-331 | returns normally exactly when no task was planned-only (no child being interrupted); then the log gained exactly all events of all candidates, and the reported maximum is the most children that were ever active or the maximum before, whichever is larger, and at least 1 when there was a candidate; however it ends, every attempt it started has ended |
| Coordinators.RetryUntilDone | runner/minimax_sample.py:221-245 | after the loop no candidate is left, a new campaign went through each task's attempts up to its first valid one, and the reported maximum is that of all passes |
| CampaignEndings.PassLosesNone | runner/campaign.py:248-331 | a pass in which no coroutine is busy any more has recorded an end for every attempt it started |
| Contract.CapIsNeverExceeded | realkit/contract.py:107-118 | over any campaign history the requests of an accepted contract stay within its cap |
| Contract.SandboxCapHolds | realkit/contract.py:44-113 | an accepted contract has positive integers, not booleans, and a pass within its sandbox cap never has more children than there are tasks |
| Contract.WorstCaseIsReached | realkit/contract.py:114-118 | some campaign reaches the worst case |
| Contract.AcceptedIff | realkit/contract.py:95-118 | a contract is accepted exactly when its limits are in order and its cap is at least tasks * 50 * call attempts * attempts |
| Contract.RefusalTells | realkit/contract.py:95-118 | each refusal says what is wrong, and the cap is looked at last, with the worst case it names |
| Contract.CapIsExact | realkit/contract.py:107-118 | a contract is accepted if and only if its other limits are in order and no campaign history can exceed its cap |
| SheetScan.ScanIsHanging | template/files/server/main.py:543-570 | for every sheet with a first showing cell within the lookahead: the scan raises exactly when a cell before it or the end of a followed run does, and otherwise emits the rows that hang from it, at the stated number of visits |
| SheetScan.HangingMembers | template/files/server/main.py:555-570 | those are exactly the cells reached by showing cells down from the corner and then along the row |
| SheetScan.ScanFindsNothing | template/files/server/main.py:564-568 | on every other sheet it raises exactly when one of 501 * 501 cells does, and otherwise emits nothing after asking these |
| SheetScan.ScanIsCompleteIff | template/files/server/main.py:543-570 | for every sheet, unless a cell raises: the sparse scan equals the scan of all cells if and only if nothing shows, or something shows within the lookahead and every showing cell hangs from the first |
| SheetScan.WindowScan | template/files/server/main.py:543-570 | when the showing cells are a window and no cell raises, the two scans are equal if and only if the window's corner is within row 500 and column 500; the exact cost |
| Accessibility.TreeIsBounded | template/files/server/main.py:413-581 | no element is deeper than MAX_DEPTH and only the tables of a spreadsheet have more than MAX_WIDTH children, for every finite tree with any failures |
| Accessibility.ChildrenAreAPrefix | template/files/server/main.py:571-581 | outside a sheet only the object itself can fail the call, and the children are the images of a maximal prefix of the real ones |
| SpreadsheetPaths.SheetIff | template/files/server/main.py:524-526 | called without a flag, the walk scans a table as a sheet if and only if some object above it is a document spreadsheet and no application named Thunderbird comes above the first of these |
| SpreadsheetPaths.BuiltOnPath | template/files/server/main.py:413-581 | the element at the end of a path from the root is built from the object there, with the flag of the objects above |
| SpreadsheetPaths.SpreadsheetShowsItsWindow | template/files/server/main.py:543-570 | in a tree built from its root, the table of a document spreadsheet whose showing cells are a window near the origin comes out with exactly these, in reading order, each the image of its own child |
| SpreadsheetPaths.OtherTableIsAPrefix | template/files/server/main.py:571-581 | any other table comes out as its first children, at most 1024 |
| Accessibility.CreateNode | template/files/server/main.py:425-581 | the recursion computes the specified tree, or raises where specified |
| Accessibility.ColumnsByVersion | template/files/server/main.py:549 | 1024 columns before version 7.4 and 16384 from then on, for version tuples of any length |
| Accessibility.CreateChildren | template/files/server/main.py:572-581 | the loop that swallows errors computes the specified prefix |
| Accessibility.CreateRow | template/files/server/main.py:556-566 | the inner loop with its learned column computes the row's part of the scan, building each showing cell |
| Accessibility.CreateRows | template/files/server/main.py:552-569 | the running index equals row * columns in every row, and the loop leaves the sheet where the specified scan does |
| Accessibility.CreateSheet | template/files/server/main.py:543-570 | the table branch builds the specified element or raises |
| PatchedCheckout.OwnedAreSix | runner/patch_upstream.py:13-36 | the owned files are the six by name; what the adapter adds are three files and a directory |
| PatchedCheckout.Checkout.RejectUnexpectedChanges | runner/patch_upstream.py:176-186 | accepts exactly the trees in which only owned files differ from HEAD and every unknown file is ignored or the adapter's; an error names all paths at fault |
| PatchedCheckout.Checkout.Outputs | runner/patch_upstream.py:239-246 | all six outputs, or an error that names an owned path and what is wrong with it |
| PatchedCheckout.Checkout.Patch | runner/patch_upstream.py:227-249 | writes nothing, naming what is wrong, or sets each of the six files, named one by one, to its transform of HEAD and leaves every other path; succeeds exactly under the stated condition |
| PatchedCheckout.Checkout.Verify | runner/patch_upstream.py:210-224 | accepts exactly the trees in which only owned files differ and each of the six, named one by one, is its transform of HEAD |
| PatchedCheckout.Checkout.RestoreTracked | runner/patch_upstream.py:195-197 | owned files as in HEAD in whatever order they are written; nothing else changes |
| PatchedCheckout.Checkout.RemoveAdded | runner/patch_upstream.py:198-207 | nothing the adapter adds is left and everything else keeps its text, refused exactly when HEAD has files in the adapter's directory |
| PatchedCheckout.Checkout.Restore | runner/patch_upstream.py:189-207 | succeeds exactly under the stated condition; then each of the six files is HEAD's, none of the three files and nothing in the directory is left, and every other path is unchanged |
| PatchedCheckout.PatchIsIdempotent | runner/patch_upstream.py:237-249 | patching again is possible and changes nothing |
| PatchedCheckout.PatchedVerifies | runner/patch_upstream.py:220-224 | a patched tree verifies |
| PatchedCheckout.VerifiesIffFixed | runner/patch_upstream.py:210-249 | a tree verifies exactly when it can be patched and patching would change nothing |
| PatchedCheckout.RestoreGivesHead | runner/patch_upstream.py:189-207 | restoring leaves no untracked file, and HEAD's files exactly if HEAD tracks no name the adapter adds |
| PatchedCheckout.RoundTrip | runner/patch_upstream.py:189-249 | copying adapter files in, patching and restoring gives back the clean checkout |
| Redaction.RedactionIsComplete | realkit/preflight.py:154-157 | no value that lies apart from the marker survives in any order of the values, and a second run of the loop changes nothing |
| Redaction.ValueIsClearedIff | realkit/preflight.py:154-157 | one value, brackets or not, is cleared from every text if and only if it does not meet the marker: is not part of it, does not begin with its end, and does not end where it could be completed by it |
| Redaction.ValuesAreClearedIff | realkit/preflight.py:154-157 | several values, brackets or not, are cleared from every text in every selection and order if and only if none meets the marker and none of finitely many candidate texts brings one back when another is replaced |
| Redaction.MadeFromCandidate | realkit/preflight.py:157 | if replacing one value brings another into any text, it does so in one of those candidate texts |
| Redaction.ListIsClearedIff | realkit/preflight.py:154-157 | a list of values that lie inside the marker or apart from it is cleared from every text if and only if none lies inside |
| Redaction.PlainValuesAreClearedIff | realkit/preflight.py:154-157 | for values without angle brackets: every text is cleared if and only if no value occurs in "redacted" |
| Redaction.ClosingValueSurvives | realkit/preflight.py:157 | every value that begins with ">" survives in some text |
| Redaction.RedactValues | realkit/preflight.py:154-157 | the loop computes the sequential replacements |

## Left out

- RelayTheorems.SandboxIsInOnePlace: cancellation in the middle of a relay operation and failing event-log writes, for which the code promises no conservation.
- RelayTheorems.StepsRunDown: says that an operation takes finitely many steps, not that the event loop schedules it; fairness of the locks is not modelled.
- GuestManagers.GuestManager.Replace: runs alone except for a stop that sets its flag during the creation; all other interleavings are those of the machine, of which every method is a run.
- GuestManagers.GuestManager.Create: a template reference that is not immutable raises before anything is created and is not modelled; nor is `get_host`.
- LogRedaction.ValidAttemptLeaksNothing: created means that the remote call returned; a relay process killed inside a remote create may leave a sandbox it never heard of.
- LogRedaction.TrustworthyIffReadable: a line of the log is its event name, its sandbox id and the keys they are asked by; values that contain a quote, or occur in the punctuation or numbers of a line, are covered only as far as they break the file, and the JSON encoding is not modelled. The regular expressions of `redact_text` are covered as redactions whose changes leave a "<".
- Evidence.ClassificationIsLegal: JSON, timestamps, artifacts, process ids and paths in events are not modelled; a reward file is its parsed content after redaction (a text that redaction changed holds a "<" and is no number).
- RunLedgers.RunLedger.Append: one atomic step; torn writes and fsync are not modelled, and the counters that `refresh_aggregate` adds to the file are not part of the aggregate.
- RunLedgers.RunLedger.ComputeAggregate: sums are exact; floating-point rounding, and with it the order of summation, is not modelled.
- Coordinators.RunPass: `gather` stops the pass at the first coroutine that fails; turns are whole segments between suspension points, so a cancellation inside the termination of a timed-out child is not modelled.
- Coordinators.CancelAll: every cancelled running child is recorded as interrupted; one whose coroutine dies before it records is covered by the machine's crash.
- Coordinators.ExecuteCampaign: the checks of paths, capabilities and metadata before the first append are left out.
- CampaignTheorems.ScheduleIndependence: the outcome of an attempt is fixed by its task and number; that real children behave so is not claimed.
- Contract.CapIsExact: the identity checks of `validate_contract` and a settings value equal to 50 that is not an integer are left out; that an attempt makes at most max_steps * model_call_attempts requests is its premise.
- Accessibility.CreateNode: attributes, text and the spelling of tags are left out; reading them is one failure that may happen; roles are "document spreadsheet", "application", "table" or another.
- PatchedCheckout.Checkout.Patch: the six source transforms are arbitrary partial functions; the index equals HEAD; text files are compared without newline translation, and a write that fails half way is not modelled.
- PatchedCheckout.Checkout.Restore: an empty adapter directory counts as absent.
- Redaction.ValuesAreClearedIff: exact for all selections and orders of the values together; for one given list it is sufficient, because an earlier value can use up the texts in which a later one would come back.
- The text of the three regular expressions at the end of `redact_text` and the collection of sensitive values.
- HTTP and WebSocket proxying, header filtering, readiness polling as network code, the E2B SDK, subprocess control and wall-clock timeouts: outcomes of steps.
- The other files of the repository (ports, provider, profile, runtime and scripts): checks that would add only easy members.
