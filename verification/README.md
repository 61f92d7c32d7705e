# Verified model of the evaluation control plane, the campaign tooling and the statistics kernel

Three parts of the system decide whether a published benchmark number means anything, and each is modelled here and
proved to keep its promises on every input, every run and every reachable state.

**The evaluation control plane** (`afa_api/jobs.py`, `afa_api/worker.py`). `Tables.dfy` holds the evaluation, trial and
raw-run tables and every guarded UPDATE as a function from one table state to the next. `Protocol.dfy` lets any number of
executors, recovery passes, operators and crashes interleave, one committed statement or one local step at a time; its
`locking` flag says whether the same-host owner lock really excludes, so each theorem says which layer it needs: with
`locking` left open it rests on the fencing tokens alone, with `true` on both layers. `TableInvariants.dfy` and
`Safety.dfy` prove the inductive invariant, `ControlPlaneTheorems.dfy`, `CancelBound.dfy` and `CancelRest.dfy` what follows
from it. `ControlPlane.dfy` is the store as an object with one method per guarded statement, each proved to perform exactly
the table function of the same name and, in terms of the rows themselves, what that does; `Worker.dfy` is the executor's own
loop, run undisturbed, with its agents and seeds.

**The campaign tooling** (`campaigns/afa_campaign/`). `Cohort.dfy`, `Acceptance.dfy` and `Receipt.dfy` are the cell
check, the acceptance predicate and the completeness validator; `Ledger.dfy` is the ownership ledger with its saved copy;
`Settlement.dfy` matches resume records to events; `LauncherProtocol.dfy` is the tooling as a transition system in which
the application moves on its own and a crash loses what was not saved, with its invariant in `LauncherSafety.dfy` and the
theorems in `LauncherTheorems.dfy`; `Launcher.dfy` is the launcher object whose methods perform those steps.

**The statistics kernel** (`kernel/afa_kernel/`), over the reals. `Wilson.dfy`, `Ranking.dfy`, `Domains.dfy`
(with its laws in `DomainLaws.dfy`) and `Scoring.dfy`; the square root is a parameter known only by `sqrt(x) >= 0` and `sqrt(x) * sqrt(x) == x`.

Around them: `Loader.dfy` (the two independently written loaders of stored runs), `Provenance.dfy` (evidence classes),
`Diffing.dfy` (clean-room diff capture and application), `Events.dfy` (event numbering and the event stream),
`Counters.dfy` (the two counts of an evaluation's outcomes) and `Nesting.dfy` (document depth). `FencingExample.dfy` is one
concrete run. `Wrappers.dfy` and `Counting.dfy` are small helpers.

Three promises turned out not to hold of the code as written. Each is kept as the code has it, with a concrete input and
the exact condition:

- `afa_api/routes_jobs.py:245-249` says the stream closes once all of a terminal evaluation's events were delivered. The
  events and the status are two reads, and an event logged between them is never delivered (`Events.CanCloseUndrained`);
  a closing stream has delivered everything after its cursor exactly when nothing was logged between the two reads or the
  cursor lay at the end of the log already (the last clause of `Events.EventStream`).
- `campaigns/afa_campaign/release_data.py:369-373` requires `rank_low` never to decrease along the board. With different
  sample sizes it can (`Ranking.RankLowCanDecrease`); two agents compare the right way exactly when no lower bound falls
  between their pass rates (`Ranking.RankLowCompares`), which one common sample size guarantees.
- `campaigns/afa_campaign/cohort.py:318-336` keeps one trial per run, so the cell check alone accepts two positions that
  share a run (`Cohort.SharedRunPassesTheCheck`); it proves distinct runs exactly when each position's run carries its own
  index (`Cohort.DistinctExactlyWithOwnIndices`), and rows written by the control plane always do.

Times are integers; digests, versions and names are opaque values; owner and claim tokens are drawn fresh; raw-run ids are
fresh when inserted. Randomness, the clock, the model server, the operating system's lock and HTTP answers appear as
parameters or as steps the environment chooses.

## Model

| member | source | states |
|---|---|---|
| ControlPlaneTheorems.ExactlyOnce | afa_api/worker.py:413-436 | In every state of every run, with or without a working lock, the raw runs owned by an evaluation and its fresh completed positions are in bijection, each run at its own task and index, so no run is stored without its trial and none twice |
| ControlPlaneTheorems.RunKept | afa_api/jobs.py:796-883 | Nothing a run has established is ever taken back: completed rows, raw runs, snapshots, modes and succeeded evaluations stay as they are through any later steps, and no evaluation gains a position |
| ControlPlaneTheorems.SuccessIsFrozen | afa_api/worker.py:450-467 | A succeeded evaluation has every position completed and neither its row nor any of its positions ever changes again |
| ControlPlaneTheorems.OriginsAreTrue | afa_api/jobs.py:636-764 | However many times evidence was reused, its recorded origin is the evaluation that owns the raw run, and the position there is a fresh completed one with the same run, version and digest |
| ControlPlaneTheorems.RowsInEveryState | afa_api/jobs.py:796-883 | Running exactly when an owner token is set; each trial state fixes the row's run, claim, evidence and origin; at most one claimed position per evaluation, only while it runs |
| ControlPlaneTheorems.StaleExecutorChangesNothing | afa_api/jobs.py:1055-1093 | The fences alone: an executor whose token is no longer current changes no evaluation, position or run with any step it takes |
| ControlPlaneTheorems.FencedOutInMidAttempt | afa_api/jobs.py:1253-1337 | What the lock adds: without exclusion, from any state in which an owner is in mid-attempt a recovery pass can requeue the evaluation, and the completion is then rolled back, raw run included |
| FencingExample.FencedOutRun | afa_api/jobs.py:1253-1337 | Such a state is reached: a whole run from an empty database in which this happens |
| ControlPlaneTheorems.RunLocks | afa_api/jobs.py:94-117 | With the lock, in every state each executor past the lock holds it, and each one past the token recheck still owns its evaluation |
| ControlPlaneTheorems.CompletionNeverLosesItsClaim | afa_api/jobs.py:817-861 | With the lock, every attempted completion commits: TrialClaimError is never raised |
| ControlPlaneTheorems.OwnerIsAlone | afa_api/worker.py:217-250 | With the lock, while an executor is inside no other executor and no recovery pass is past the lock for that evaluation, and only its own steps change the evaluation's status or token |
| Safety.RunKeeps | afa_api/jobs.py:1253-1337 | The joint invariant of tables and executors (row shapes, fresh tokens, claims known to exactly their executor) holds in every state of every interleaving with crashes |
| Safety.StepKeeps | afa_api/worker.py:324-467 | Each single step of any actor keeps that invariant |
| CancelBound.AtMostOneClaimAfterCancel | afa_api/worker.py:346-365 | Once the cancel flag is set, at most one more position is claimed until the evaluation is resumed, across crashes, recovery and re-dispatch, and none if no current owner was already past the check |
| CancelRest.CanceledNeverStarts | afa_api/jobs.py:1387-1405 | Over runs: a canceled evaluation that was still queued stays canceled and unowned until it is resumed, no dispatch of it is ever enabled, no executor owns it, and its positions and runs stay exactly as they were |
| CancelRest.RestsUntilResumed | afa_api/jobs.py:1340-1385 | Over runs: an evaluation that is neither queued nor running changes, row, positions and runs, by nothing but its own resumption |
| TableInvariants.FrameKeeps | afa_api/jobs.py:1055-1093 | A statement that leaves places and completed evidence alone keeps the whole table invariant |
| TableInvariants.PersistKeeps | afa_api/jobs.py:817-861 | The completion transaction keeps it too, including the bijection of runs and positions |
| ControlPlaneStore.ControlPlane.ClaimJobToken | afa_api/jobs.py:1055-1068 | Claims a queued unowned evaluation under a fresh token, else changes nothing; a returned token owns the evaluation |
| ControlPlaneStore.ControlPlane.TouchOwner | afa_api/jobs.py:1084-1093 | Renews the lease exactly for the current owner of a running evaluation and reports whether it did |
| ControlPlaneStore.ControlPlane.MarkTerminal | afa_api/jobs.py:1436-1447 | Ends the evaluation and clears ownership only for the current owner's token |
| ControlPlaneStore.ControlPlane.RequestCancel | afa_api/jobs.py:1387-1405 | A queued evaluation is canceled at once, a running one keeps running with its cancel flag set, any other is untouched, and so is every other row |
| ControlPlaneStore.ControlPlane.ResumeJob | afa_api/jobs.py:1340-1385 | Requeues exactly an unowned failed, canceled or queued evaluation, clears its cancel flag and reopens its blocked positions; every other row is untouched |
| ControlPlaneStore.ControlPlane.ClaimTrial | afa_api/jobs.py:796-815 | Claims a pending position exactly for the current owner |
| ControlPlaneStore.ControlPlane.CompleteTrial | afa_api/jobs.py:817-861 | Completes exactly a position still claimed under this claim by the current owner, else nothing changes and the caller learns it |
| ControlPlaneStore.ControlPlane.SaveRunAndComplete | afa_api/worker.py:413-436 | Run row and trial row are stored together or not at all |
| ControlPlaneStore.ControlPlane.ReleaseClaim | afa_api/worker.py:173-182 | Gives back exactly the claim held under this token |
| ControlPlaneStore.ControlPlane.MarkTrialUnverifiable | afa_api/jobs.py:863-883 | Blocks every uncompleted position of one task, for the current owner only |
| ControlPlaneStore.ControlPlane.ReclaimOne | afa_api/jobs.py:1253-1337 | Requeues or fails a stale running evaluation only if the row still is what the pass read, together with its positions; leaves everything alone while the lease is at most the configured window, a minute, or the request timeout (clamped to a day) and a minute old |
| ControlPlaneStore.ControlPlane.ReclaimStaleRunning | afa_api/jobs.py:1174-1250 | Whatever order the rows come in and whichever raise: a running evaluation whose lock is held or whose lease is current keeps row, owner and positions and is in neither list; with the lock free, nothing raising and the lease too old (or recovery forced) it is requeued with its claims released, or failed with its open positions blocked when its parameters are not trustworthy, and keeps that even if recording the outcome raises; the lists say exactly which |
| ControlPlaneStore.ControlPlane.CheckReuse | afa_api/jobs.py:636-700 | Accepts a source exactly when it is no legacy evaluation, was created from this snapshot, has exactly its positions, and each is completed at the pinned version and digest with a scored, diffed run of known non-legacy origin whose artifacts are stored |
| ControlPlaneStore.ControlPlane.CreateJob | afa_api/jobs.py:625-766 | Creation is all-or-nothing at whichever statement the database raises, from the evaluation's own insert to the commit; a refused or failed one leaves the tables as they were; a committed one adds a queued unowned evaluation with exactly the requested positions, pending and pinned, or completed with the run of the source's position there and the evaluation owning that run as origin |
| ControlPlaneStore.ListRows | afa_api/jobs.py:788-794 | Every position of the evaluation once, ordered by task and index |
| ControlPlaneStore.OrderIsUnique | afa_api/jobs.py:788-794 | That query order determines the list |
| Worker.SeededAgent.Act | runner/afa_runner/agents_ollama.py:117-123 | A call uses the base seed plus the number of calls since the last re-seeding |
| Worker.Execute | afa_api/worker.py:365-445 | One attempt uses the seed base + index whatever the agent did before; a graded one is persisted as graded, with the call's seed, the snapshot's model and pinned version and the given provider; any failure releases the claim and leaves no run |
| Worker.RunRow | afa_api/worker.py:324-445 | One iteration's whole effect on trials, runs and calls, for every row state, cancel flag and way an attempt can end |
| Worker.RunRows | afa_api/worker.py:324-449 | The loop attempts pending positions in order and stops only on a lost lease, a cancel request or a position that cannot be completed |
| Worker.LoopDecides | afa_api/worker.py:450-467 | After the whole loop all positions are completed exactly when each one could be |
| Worker.BlockEverything | afa_api/worker.py:185-202 | Every uncompleted position ends blocked as unverifiable, each task visited once |
| Worker.RunJobLocked | afa_api/worker.py:253-483 | One undisturbed execution: how it ends (legacy, refused parameters, cancel, success exactly with every position completed), nothing else touched, and every position it completed holds a new run recorded as its attempt was graded, with the seed of a call made for it; without ownership nothing happens |
| Worker.RunJob | afa_api/worker.py:204-251 | The same behind the readability check, the owner lock and the token recheck |
| Worker.ResumeAndDispatch | afa_api/jobs.py:1340-1385 | From any state of the invariant, a resumed and undisturbed execution ends succeeded exactly when the rest gets graded, executes exactly the uncompleted positions once each, in order, with the seeds of an uninterrupted run, records each as graded, and leaves completed ones untouched |
| Provenance.Classify | afa_api/evidence.py:101-145 | Real evidence is exactly what one real provider vouches for and no other one contradicts, synthetic what the mock does; only a run without evaluation or provider is legacy |
| Provenance.ClassOfRunMeans | afa_api/evidence.py:101-145 | A stored run's class by its own provider and the one its evaluation's snapshot records: which pairs make it real, synthetic or a conflict |
| Cohort.CheckCellEvaluation | campaigns/afa_campaign/cohort.py:233-417 | Reports no problem exactly for a succeeded fresh evaluation of this cell with the pinned configuration, exactly its positions completed, matching real runs and no others; the counts are those of its runs by their own flags and add up to the repetitions |
| Cohort.CheckTrials | campaigns/afa_campaign/cohort.py:305-336 | Each trial is checked, and trial_by_run ends up holding the last row of each run |
| Cohort.CheckRuns | campaigns/afa_campaign/cohort.py:337-415 | Each run is checked against the trial kept for it; the counts are exactly the unvoided, the passed and the voided ones |
| Cohort.DistinctExactlyWithOwnIndices | campaigns/afa_campaign/cohort.py:318-336 | A cell that passes has pairwise distinct runs if and only if every position's run carries that position's index |
| Cohort.SharedRunPassesTheCheck | campaigns/afa_campaign/cohort.py:318-336 | A database in which two positions share one run passes the cell check |
| Cohort.ControlPlaneRowsAreDistinct | campaigns/afa_campaign/cohort.py:310-415 | On tables the control plane can reach, a cell that passes has distinct runs |
| Cohort.NoOverlapMeansAlone | campaigns/afa_campaign/cohort.py:139-161 | The overlap query is empty exactly when every executed trial of another evaluation lies wholly before or after each of this one's, and every trial still claimed by a queued or running one was claimed no earlier than each of this one's completions |
| Acceptance.ResumeProblems | campaigns/afa_campaign/validate.py:29-49 | No problem exactly when every resume is settled and the application logged no more resumes than the tooling executed |
| Acceptance.RehearsalProblems | campaigns/afa_campaign/validate.py:52-65 | No problem exactly when every start was code-checked and warmed up |
| Acceptance.IdentityProblems | campaigns/afa_campaign/validate.py:88-124 | No problem exactly when digest and server version are proven equal to the campaign's reference at both ends |
| Acceptance.AssessCell | campaigns/afa_campaign/validate.py:67-124 | Accepts exactly succeeded entries whose evaluation meets every acceptance condition; spelled out on rows and records: the evaluation's row and positions are the cell's, it ran alone (trials still in flight included), every start is in order, resumes are accounted for and the model's identity is proven; then as many valid runs as repetitions, none voided |
| LedgerStore.ScanEntries | campaigns/afa_campaign/ledger.py:214-279 | The single pass finds an id owned twice and a cell with two active entries exactly when there is one |
| LedgerStore.Ledger.CheckInvariants | campaigns/afa_campaign/ledger.py:214-279 | Raises no error exactly when one entry per cell is active, each id is in one entry, and owned and disowned ids are disjoint |
| LedgerStore.Ledger.Load | campaigns/afa_campaign/ledger.py:145-167 | A restarted process sees exactly the saved document, and refuses one of another campaign, of another plan or with a broken invariant |
| LedgerStore.Ledger.Save | campaigns/afa_campaign/ledger.py:176-178 | Writes exactly a document in order; otherwise the saved one stays |
| LedgerStore.Ledger.NewEntry | campaigns/afa_campaign/ledger.py:285-307 | Adds an entry exactly when the cell has no active one, and keeps the ledger in order |
| LedgerStore.Ledger.Supersede | campaigns/afa_campaign/ledger.py:358-377 | Replaces the cell's active entry only with a reason and only in a supersedable state, a succeeded one only on refusal; refused calls change nothing |
| LedgerStore.Ledger.Disown | campaigns/afa_campaign/ledger.py:343-356 | Disowns exactly an unknown id with a reason, and keeps the ledger in order |
| LedgerStore.UpdateKeeps | campaigns/afa_campaign/ledger.py:309-313 | An update that keeps its cell and records no known id keeps the ledger in order |
| Settlement.SettleResumes | campaigns/afa_campaign/launcher.py:763-813 | The in-place settlement is the two-pass matching and it is fair: each event goes to one record, no earlier than a second before its request and for an open one at most five minutes later; nobody is passed over for an event it could have had except for records known to have run and those before it; open records end executed exactly with an event |
| Settlement.PassIsMatching | campaigns/afa_campaign/launcher.py:796-806 | A pass assigns events inside their record's window, from the free ones, none twice |
| Settlement.PassLeavesTheRest | campaigns/afa_campaign/launcher.py:796-806 | And leaves exactly the unclaimed events free |
| Settlement.GreedyIsMaximum | campaigns/afa_campaign/launcher.py:796-810 | With non-decreasing request and event times no assignment matches more records than the greedy pass |
| Settlement.SettlementIsInjective | campaigns/afa_campaign/launcher.py:763-813 | Records marked executed hold distinct events in their windows, none of them one a resume known to have run claimed |
| Settlement.SettlementIsMaximum | campaigns/afa_campaign/launcher.py:763-813 | As many ambiguous records are marked executed as any assignment of the events left by the first pass allows |
| Settlement.SettledOnce | campaigns/afa_campaign/launcher.py:763-775 | Nothing stays ambiguous, settled records are untouched, and a second settlement changes nothing whatever events came since |
| LauncherSafety.RunOk | campaigns/afa_campaign/launcher.py:477-587 | In every state of every run, saved and in-memory ledger are in order, agree except for a not yet saved verdict, and match what the process is about to do |
| LauncherSafety.DrainCellOk | campaigns/afa_campaign/launcher.py:532-576 | Draining one cell keeps that, and leaves nothing of the drained cells in flight |
| LauncherTheorems.SavedLedgerIsInOrder | campaigns/afa_campaign/ledger.py:214-279 | The saved ledger always satisfies the ledger invariants, has at most one evaluation in flight, and owns only existing evaluations named for their cell |
| LauncherTheorems.PostIsChecked | campaigns/afa_campaign/launcher.py:704-735 | At every POST the application was, within the same attempt, seen idle and then seen with every campaign-named evaluation owned or disowned |
| LauncherTheorems.NothingIsLostBetweenPosts | campaigns/afa_campaign/launcher.py:815-859 | Whatever an earlier POST created, its answer recorded, lost or never seen, is owned or disowned before any later POST |
| LauncherTheorems.IntentIsReconciled | campaigns/afa_campaign/launcher.py:621-644 | A saved intent is decided by name: one untracked candidate is adopted, none withdraws the entry, several halt with the ledger as it was |
| LauncherTheorems.NoIntentWhilePlanning | campaigns/afa_campaign/launcher.py:589-619 | When the next cell is submitted no intent is pending, so no untracked evaluation is excused |
| LauncherTheorems.SucceededWasAccepted | campaigns/afa_campaign/launcher.py:1069-1086 | Every entry ever saved as succeeded passed the acceptance predicate on the tables of some moment of the run |
| LauncherTheorems.SucceededIsFinal | campaigns/afa_campaign/launcher.py:1262-1286 | A succeeded entry stays exactly as saved unless it is superseded at a moment when the acceptance predicate refuses it |
| LauncherObject.Launcher.CheckUntracked | campaigns/afa_campaign/launcher.py:589-619 | Halts exactly when some campaign-named evaluation that nobody owns or disowned has no saved intent of its name or shares the name with another such one |
| LauncherObject.Launcher.AdoptIfCreated | campaigns/afa_campaign/launcher.py:621-644 | Adopts exactly the sole unowned evaluation named for the cell, saved before returning; several halt, none changes nothing |
| LauncherObject.Launcher.DrainCell | campaigns/afa_campaign/launcher.py:532-576 | Performs exactly the protocol's drain step: a failed or canceled entry whose evaluation moved on since the halt is rejected, a submitted one gets its resumes settled fairly and is waited for |
| LauncherObject.Launcher.CheckAppState | campaigns/afa_campaign/launcher.py:704-735 | Passes exactly when the application is reachable, bound to the campaign's database, healthy and idle, the historical evidence is unchanged, and then nothing is untracked |
| LauncherObject.Launcher.SaveIntent | campaigns/afa_campaign/launcher.py:815-841 | The new entry, submitting, without id and with the start's facts, is on disk before the POST |
| LauncherObject.Launcher.RecordAnswer | campaigns/afa_campaign/launcher.py:842-859 | A refusal withdraws the entry, an unknown outcome keeps the intent, a wrong evaluation is owned but rejected, a right one is owned as submitted |
| LauncherObject.Launcher.Watch | campaigns/afa_campaign/launcher.py:861-895 | Another evaluation running alongside, or a model or server other than the one submitted to, taints the saved entry for good |
| LauncherObject.Launcher.Judge | campaigns/afa_campaign/launcher.py:957-1068 | The state given to a finished evaluation, each exactly characterised: accepted, needing attention, failed or canceled as it was, and rejected otherwise |
| LauncherObject.Launcher.Finish | campaigns/afa_campaign/launcher.py:957-1089 | Saves success only after assessing the marked entry on the tables as they are then; any refusal is saved as rejected |
| LauncherObject.Launcher.ResumeCell | campaigns/afa_campaign/launcher.py:1129-1222 | Refuses, unchanged, exactly the cells without an unreplaced failed or canceled entry that saw no violation and whose starts were all code-checked and warmed up; otherwise marks the entry in flight and saves before the POST, only when all is ready and nothing is in flight or active; a foreign resume rejects it |
| LauncherObject.Launcher.RecordResumeAnswer | campaigns/afa_campaign/launcher.py:1223-1259 | Records the outcome on the last resume; a resume that did not happen restores the previous state |
| LauncherObject.Launcher.SupersedeCell | campaigns/afa_campaign/launcher.py:1262-1286 | Succeeds exactly with a reason on a supersedable entry, a succeeded one exactly when the acceptance predicate refuses it now |
| LauncherObject.Launcher.DisownEvaluation | campaigns/afa_campaign/launcher.py:1289-1307 | Disowns exactly an existing, ended, unknown evaluation with a reason, in this campaign's own ledger |
| Receipt.ValidateCampaign | campaigns/afa_campaign/validate.py:143-350 | Says complete exactly when every expected cell is accepted, nothing is untracked or stray, inputs are unchanged and the cohort is large enough; entry by entry: one unreplaced entry per expected cell, which is evidence, none for an unplanned cell, and every campaign-named evaluation owned or disowned; then the counts are the full matrix |
| Receipt.CompleteMeansDistinctRealRuns | campaigns/afa_campaign/validate.py:305-306 | A complete receipt means every planned position has a run made by the active entry's evaluation: the cell's model, task, repetition and pinned version, by the plan's real provider and no reserved agent, scored, diffed and unvoided; and no run serves two positions of the whole matrix |
| Receipt.CompleteCountsEveryOwnedRun | campaigns/afa_campaign/validate.py:194-241 | Conversely every raw run of such an evaluation is some planned position's |
| Receipt.CompleteReceiptOfARun | campaigns/afa_campaign/validate.py:305-306 | Both, and that every counted evaluation ran alone, no trial of another one executed or still in flight alongside, for any state of any control-plane run and any ledger saved in any run of the tooling |
| Wilson.BoundsAreUnclamped | kernel/afa_kernel/confidence.py:54-88 | Over the reals clamps and end-point snaps change nothing, and 0 <= low <= p <= high <= 1 |
| Wilson.BoundsAreTheRoots | kernel/afa_kernel/confidence.py:54-88 | The bounds are exactly the rates x with (p - x)^2 = z^2 x (1 - x) / n; the test passes strictly between them and fails outside |
| Wilson.BelowTheLowerBound | kernel/afa_kernel/confidence.py:91-93 | A rate is below the lower bound exactly when it is below the proportion and the score test rejects it |
| Wilson.LowerBoundIncreases | kernel/afa_kernel/confidence.py:91-93 | For one sample size the lower bound strictly increases with the passes |
| Wilson.LargerSampleRaisesLowerBound | kernel/afa_kernel/confidence.py:91-93 | For one positive pass rate a larger sample strictly raises the lower bound |
| Ranking.OutRanksIsStrictOrder | kernel/afa_kernel/ranking.py:72-80 | "Lower bound above the other's pass rate" is a strict partial order |
| Ranking.RangesAreSound | kernel/afa_kernel/ranking.py:72-92 | Every linear order consistent with it places each agent inside its range, and 1 <= rank_low <= rank_high <= n |
| Ranking.RangesAreTight | kernel/afa_kernel/ranking.py:72-92 | Both ends of each range are attained by some consistent linear order |
| Ranking.BoardOrderIsConsistent | kernel/afa_kernel/ranking.py:94-95 | The returned order never lists an agent before one that out-ranks it |
| Ranking.RankHighNeverDecreases | kernel/afa_kernel/ranking.py:80-95 | Down the returned order rank_high never decreases |
| Ranking.RankLowCompares | campaigns/afa_campaign/release_data.py:369-373 | rank_low orders two agents as their pass rates unless a lower bound falls between those rates, and only then |
| Ranking.RankLowNeverDecreasesForOneSampleSize | campaigns/afa_campaign/release_data.py:369-373 | With one sample size rank_low never decreases down the returned order |
| Ranking.RankLowCanDecrease | campaigns/afa_campaign/release_data.py:369-373 | With unequal sample sizes it can, for any square root: a concrete board of three ranked agents |
| Ranking.SortStats | kernel/afa_kernel/ranking.py:94-110 | A permutation in the order of the sort key |
| Ranking.RankByLcb | kernel/afa_kernel/ranking.py:32-113 | The board shows each input once, with its own size, pass rate and the two rates its score test just tolerates; agents of five runs and more first, by lower bound, rate and name, each with 1 + the ranked rows whose lower bound beats its rate and n less those whose rate its lower bound beats; the others by rate and name without a range |
| Ranking.BoardRespectsRanges | kernel/afa_kernel/ranking.py:32-113 | On every input each ranked row of the board stands inside its own range and after all that out-rank it |
| Domains.EffectiveSizeIsAtMostRuns | kernel/afa_kernel/domains.py:64-65 | With some run mass 0 < n_eff <= n_runs, with equality exactly when all contributions with runs weigh the same |
| Domains.PooledRateIsEnclosed | kernel/afa_kernel/domains.py:40-75 | 0 <= low <= pooled rate <= high <= 1, degenerate case included |
| Domains.ScalingWeightsChangesNothing | kernel/afa_kernel/domains.py:40-86 | Multiplying all weights by one positive factor changes no field of the score |
| DomainLaws.PooledBalances | kernel/afa_kernel/domains.py:63 | The pooled rate is the one rate about which the weighted results balance: the weighted sum of passes less rate times runs is zero there and only there |
| DomainLaws.PooledExtremes | kernel/afa_kernel/domains.py:63 | It is 1 exactly when every run passed and 0 exactly when none did |
| DomainLaws.OneMorePassRaises | kernel/afa_kernel/domains.py:63 | One more pass in any contribution strictly raises it |
| DomainLaws.EqualWeightsGiveTheShare | kernel/afa_kernel/domains.py:63 | With equal weights the rate times the runs is the number of passes |
| DomainLaws.JoiningIsTheWeightedMean | kernel/afa_kernel/domains.py:63 | Joining two lists gives the mean of their rates weighted by their run masses |
| DomainLaws.IntervalIsTheScoreTest | kernel/afa_kernel/domains.py:63-67 | Low and high are exactly the rates on the boundary of the score test of the pooled rate at n_eff with z = 1.96, and the test passes exactly between them |
| DomainLaws.StabilityJoins | kernel/afa_kernel/domains.py:69-73 | Stability pools as the rate does |
| DomainLaws.SingleStability | kernel/afa_kernel/domains.py:69-73 | A single task's stability is 1 less twice its deviation, never negative |
| DomainLaws.WorkedAnchor | kernel/afa_kernel/domains.py:34-36 | The documented example pools to 0.60 with n_eff 100/6.875 |
| Scoring.ComputeTHidden | kernel/afa_kernel/scoring.py:37-56 | The clamped weighted share of hidden tests passed; exactly 1 when all passed and the suite has weight |
| Scoring.QualityIsTheMean | kernel/afa_kernel/scoring.py:80-130 | The quality is the weighted mean of the available components in [0, 1], and 1 without any |
| Scoring.ScoreRun | kernel/afa_kernel/scoring.py:133-180 | A run passes if and only if it is not an infrastructure failure, all gates and hidden tests pass and the suite has weight; a voided or gated run scores zero; otherwise share and quality are the input's own and the score is 85 percent of the share plus quality times the other 15 |
| Scoring.ScoreIncreases | kernel/afa_kernel/scoring.py:133-180 | Better quality and a larger share of hidden tests each strictly raise the score of a run that passed its gates |
| Scoring.ComponentsMeasure | kernel/afa_kernel/scoring.py:91-106 | Lint, type check, static and security components from best to worst: 0 and 10 errors, ok and not, 0 and 10 findings, weighted findings 0 and 3, linear between |
| Scoring.ParsimonyMeasures | kernel/afa_kernel/scoring.py:108-119 | Parsimony is 1 up to twice the reference size (at least 10 lines), 0 from eight times on, linear between |
| Scoring.FullQuality | kernel/afa_kernel/scoring.py:80-130 | With everything measured the quality is 0.20, 0.25, 0.20, 0.20 and 0.15 of the five components |
| Loader.LoadStores | afa_api/store_load.py:251-353 | The aggregate holds every record of an unreserved agent, in scope and of its task's current version, as often as the stores do, and no other; the three exclusion totals count the rest by class; each record has exactly one fate, for its agent and in its own cell; the aggregate's cells are recorded with their versions and nothing is refused |
| Loader.NeverRefused | afa_api/store_load.py:341-353 | The recorded versions are those of the aggregate's cells, and each cell has exactly one, so the refusal cannot fire |
| Loader.BenchmarkIsClean | afa_api/store_load.py:251-320 | In the benchmark scope no synthetic, conflicting or outdated run and no reserved agent's is aggregated |
| Loader.FatesPartition | afa_api/store_load.py:251-320 | Current, historical, synthetic, conflicting and out-of-scope records add up to all records |
| Loader.UnaccountedHaveNoScoreOrDiff | afa_api/store_load.py:321-353 | The runs missing from the projection are exactly those without a score or a diff |
| Loader.EveryRunIsAccountedFor | afa_api/store_load.py:251-353 | The agents' current and historical counters, the exclusions and the unaccounted runs equal the database total, the current ones are the aggregate, and per-cell exclusions sum to the totals |
| Loader.EvidenceSums | afa_api/store_load.py:316-329 | The loader's per-agent counters add up to the current and the historical records |
| Loader.BuildReport | examples/report_combined.py:144-204 | The second implementation's loop: its models in order, its counts, historical and excluded totals and store, over the same snapshot |
| Loader.CompareLoaders | examples/report_combined.py:144-204 | Both implementations agree on every snapshot: the same agents, current runs and tasks per agent, the historical total as the sum of the loader's per-agent counters, the excluded total, and the aggregate's contents |
| Diffing.CaptureDiff | runner/afa_runner/diffing.py:233-299 | Changed and deleted paths are exactly those that differ, and touched_protected holds exactly when one of them is protected, would be executed on its own, or lies outside what may be edited |
| Diffing.EmptyIffUnchanged | runner/afa_runner/diffing.py:233-299 | The diff is empty if and only if the trees are equal |
| Diffing.ApplyDiff | runner/afa_runner/diffing.py:302-333 | For any diff, fails exactly when a carried write or deletion meets a file or directory in its way; otherwise exactly the carried changes and deletions are made, missing paths skipped |
| Diffing.RoundTrip | runner/afa_runner/diffing.py:204-333 | Applying the captured diff to a fresh snapshot yields the modified tree on every path not always-protected and the snapshot on those that are, so exactly the modified tree when the scope gate passes; it fails exactly when a written path lies above or beneath a deleted one |
| Diffing.FileReplacedByDirectory | runner/afa_runner/diffing.py:302-333 | A pair of trees on which it fails, since writes precede deletions |
| Events.EventLog.Insert | afa_api/jobs.py:1486-1515 | The unique key refuses exactly a number already taken; committed numbers stay exactly 1..n |
| Events.EventLog.AppendEvent | afa_api/jobs.py:1486-1515 | The first uninterrupted attempt appends the event with the next number; after eight interrupted ones nothing of it is logged; other evaluations' logs are untouched |
| Events.EventLog.EventsSince | afa_api/jobs.py:1517-1526 | Exactly the events after the cursor with their numbers, in order, as many as there are up to the limit |
| Events.EventStream | afa_api/routes_jobs.py:271-306 | One connection delivers a gap-free, duplicate-free piece of the log from its cursor on, closes only at a poll that saw a terminal status and no new event, and is drained then if and only if nothing was logged between that poll's two reads or its cursor lay at the end |
| Events.Reconnecting | afa_api/routes_jobs.py:261-306 | Across reconnects by last id the deliveries are a gap-free, duplicate-free prefix of the log |
| Events.CanCloseUndrained | afa_api/routes_jobs.py:271-301 | A stream that closes with an event undelivered |
| Counters.RefreshCounters | afa_api/jobs.py:885-913 | The aggregate query counts exactly the completed positions, those executed here whose score passes, fails or is voided, and the reused ones |
| Counters.GradesAreCounted | afa_api/worker.py:413-436 | An execution adds to the passed, voided and failed positions exactly those it completed whose attempt was graded so |
| Counters.ReachableRowsAreFreshOrReused | afa_api/jobs.py:885-913 | On tables the control plane can reach every completed position is fresh or reused, which is all the two counts ask of them |
| Counters.ReportCounters | afa_api/evaluation_report.py:315-341 | The report counts the same, but leaves voided scores out of the passed ones |
| Counters.CountersAgreeUnlessAVoidPasses | afa_api/evaluation_report.py:315-341 | The two counts agree exactly when no voided score is also a pass |
| Counters.CompletedIsAccountedFor | afa_api/evaluation_report.py:315-341 | Passed, failed, voided and reused add up to completed exactly when every fresh completed position has a score |
| Nesting.NestingDepth | afa_api/jobs.py:148-165 | The explicit-stack loop returns the exact depth of a document within the limit and some depth beyond the limit of any other: more than 32 exactly when a chain of 33 nested containers exists |
| Nesting.DepthIsLongestChain | afa_api/jobs.py:148-165 | The depth is the length of the longest chain of containers, each inside the one before |

## Left out

- `mark_terminal` without an owner token: it has no caller in the modelled code.
- A failing `_release_claim` statement: it either succeeds or the process dies, since its own failure could leave a claimed position under a failed evaluation.
- Events and counters are not part of the protocol's state; they are modelled on their own (`Events.dfy`, `Counters.dfy`), as are the columns `started_at`, `finished_at`, `error_message` and the `job_runs` link table (whose inserts in `create_job` are not counted as statements).
- Reading and strict validation of stored parameters and snapshots: whether they are trustworthy is an input of the steps that ask.
- The owner lock file itself: only that the operating system frees it when its process dies.
- Worker.RunJob: runs undisturbed; interference by other executors, recovery and operators during a run is covered by `Protocol.dfy` instead.
- Worker.Execute: what an agent does in its workspace and how it is graded is one input per position (task unreadable, agent cannot be made, attempt raises, or a graded outcome).
- `claim_next_queued`, `retry_job`, `list_jobs`, display of unreadable rows: reads or thin wrappers.
- Deleting evaluations from the database: the campaign's application only gains evaluations, so the launcher's answer to a missing one is not modelled.
- The launcher's outer loop as one method: its order of steps is the transition system's program counter, and `Launcher` has one method per step.
- Waiting before a detected foreign resume is rejected: detection and rejection are one step, repeated after a crash in between.
- Launch records, model classification, report files, reachability limits and polling intervals of the launcher.
- `reference_digests` and `reference_ollama_version`: the campaign's reference identities are constants of a run.
- Halt snapshots hold status, completed positions and resume count; the finish time they also hold is not modelled.
- Malformed or missing ledger documents: entries are typed; the header and the relational checks of `_check_invariants` are modelled.
- Receipt.ValidateCampaign: the per-model tallies, timeout and agent-error counts, warnings and the listing of classified models' accepted evidence, which never influence the verdict.
- Scoring.ScoreRun: floating-point rounding and its epsilon, as everywhere in the kernel: reals throughout.
- `pass_at_k`, the Student-t table, `macro_overall` and the summary fields of `aggregate.py`: single expressions.
- Diffing.CaptureDiff: glob matching, the list of paths executed on their own and the unified-diff text are abstract predicates or dropped; ignored and binary files do not enter the trees.
- Loader.BuildReport: ends before the synthetic baselines are added; rendering is left out.
- Events.EventStream: the unbounded loop runs over a finite list of polls of any length; heartbeats and pauses are dropped.
- Names are injective in cell and campaign; how they are spelled and parsed is not modelled.
- `lifecycle.py`, `release_data.py`, `analysis.py`, HTTP clients, model servers, routing, the web front end, integrity checks and database migration.
