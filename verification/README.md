# sparkrun: resumable benchmarks, placement and teardown, verified

A Dafny model of the parts of sparkrun that keep state across runs, and proofs of what they keep.
`dafny verify dfyconfig.toml` checks all of it.

**Resumable benchmark runs.** A benchmark's progress lives in a state directory: `state.yaml` and one result file per
scheduled task. `RunState` is the progress object and its directory. `Schedule` is the life of one directory over any
number of sessions, each of which may succeed, fail, be interrupted, crash, or be killed between any two saves.
`ScheduleRun` is `run_schedule` itself, as a class whose ghost log shows every call to be a run of `Schedule`; `InnerLoop`
says exactly when its loop ends. `TaskList` and `Aggregator` build the schedule, name and read back result files, merge
them and find gaps. `Resume` is the decision to reuse, discard or create state, over any sequence of launches, runs and
resumes. `Benchmark` puts building, opening and running together. `StateLock` is the lock on the directory, as a protocol
over processes that can die at any step.

**Placement, occupancy and eviction.** A relaunch subtracts its own containers from the occupancy snapshot (`Exclusion`),
places its ranks on what is left (`Hosts`, `Pack`), then stops the deployments it assumed were gone (`Eviction`). `Halves`
says when the two halves agree. In `Relaunch` a plan and its start are two steps with a status query each, either of which
may miss hosts or fail; `LaunchHistory` is any order of plans, starts and stops. `Intent` is the "is this already up?"
query on the same snapshots, `Snapshot` the snapshot and the cluster identifiers.

**Companions.** `Heredoc` prints requirement files into a shell script and reads them back by the here-document rules of
section 2.7.4 of POSIX.1-2017 Shell Command Language. `StopAll` tears discovered containers down through the executors
that reported them. `HostKey`, `Text`, `Sorting` and `Prelude` are shared vocabulary.

Time, subprocess outcomes, removals on remote hosts, the content hash, directory listing order and user answers are
parameters. A digest is an arbitrary function, injective only where a statement asks for it. Numbers are integers and
reals; no property rests on rounding.

## What the proofs found

Where a promise holds only under a condition, the model keeps the code as it is and proves the condition.

- On everything the status providers can report, the two halves of a relaunch agree on the loads that eviction finds if and
  only if every earlier deployment of the intent on a target is shown to the eviction's query and removed
  (`Halves.ProviderHalvesAgree`). Eviction matches a workload by a textual prefix and planning by parsing the id, so the
  tests themselves differ, on ids that start like the intent's but are not canonical, such as
  `sparkrun_0123456789abcdef_job` (`Halves.ALookalike`). Both providers take ids from container names by a pattern that
  admits canonical ids only (`docker.py:131-134`, `local.py:47-50`), so only an executor from outside the repository could
  report one. `Halves.HalvesAgree` is the exact condition for any loads, any query and stops, and any cluster id.
- `cluster_id_override` of another intent is applied after planning excluded the recipe's own intent; when the halves then
  agree is `Halves.OverrideSplitsTheHalves`.
- Eviction sees what its query of the candidate hosts shows: everything else of an evicted deployment stays
  (`Halves.LeftOverExactly`).
- Status providers count containers, not ranks, so a host may look emptier than it is. Planning is safe from that all the
  same, because a partially busy host that reports slots only is passed over: a host offers GPUs to a plan exactly when no
  workload of another intent there is shown to the planning query (`Relaunch.OfferedIff`). Without that rule, counts would
  let six ranks onto four GPUs (`Relaunch.CountsAloneDoNotProtect`).
- An unreachable host is left out of the snapshot, and a host that is left out counts as fully free. So a busy host that
  the planning query misses can be given ranks and is then over-committed, whatever eviction does
  (`LaunchHistory.MissedHostIsOverCommitted`). When the
  eviction's query fails or misses a target, the old deployment runs on beside the new one, and no stop was issued that
  could have failed (`LaunchHistory.MissedEvictionIsOverCommitted`). Two plans made on the same idle host both start
  (`LaunchHistory.CrossedPlansOverCommit`). In none of the three need any stop fail.
- What a target carries after a start is always the claims of the spared deployments of the intent, of the other intents
  there, and of the new ranks (`Relaunch.TargetLoadIs`). If that is too much, the cause is one of these: a query that missed
  something, a workload that arrived after planning, or a stop that raised or named the host as failed
  (`Relaunch.OverCommitHasACause`). A history keeps every host within its hardware if and only if every start is safe on
  the loads it finds (`LaunchHistory.HistoriesStayGoodIff`), and starts are safe when plans were shown all of their
  targets, no other intent was started there since, and the earlier deployments are shown and removed
  (`LaunchHistory.CarefulHistoriesStayGood`).
- On a host that was over-committed, exclusion reports more free slots than there are (`Exclusion.ExclusionFreeIsExact`).
- Without `exit_on_first_fail` the inner loop retries the same failing index at once, although the comment on
  `next_pending` says failures of the current session are skipped. It runs forever exactly when, from some turn on, every
  attempt fails (`InnerLoop.RunsForeverIffStuck`).
- `run_schedule` documents `skip_run` but never reads it; its final "partial" status cannot be reached
  (`ScheduleRun.Session.Finish`).
- The lock excludes only if create-and-write and read-decide-unlink are each one step, holds stay under the age ceiling,
  hosts know their names, and every process may write the directory, read the others' locks and signal the others on its
  host: a lock that another user wrote with mode 0600, or whose holder may not be signalled, counts as abandoned, and where
  the lock cannot be created the call goes on without it. Each assumption has a run with two holders without it
  (`StateLock.TwoReclaimersBothEnter`, `StateLock.OtherUsersLockIsStolen` and their neighbours).
- `benchmark resume` never compares the hosts of the job metadata with the recorded ones. Under a deterministic scheduler
  two solo launches on the same candidates, named in another order, share a cluster id and land on different hosts; a
  benchmark begun on one and resumed on the other mixes them (`Resume.ResumeMixesNodeSets`). Result files stay of one node
  set if and only if no session measures on other nodes than its directory records
  (`Resume.ResultFilesAreOfOneNodeSetIff`), and files and open sessions do if and only if no resume strays
  (`Resume.SessionsKeepToOneNodeSetIff`).
- A host mismatch under an injective id cannot be found, contrary to the comment that legacy state reaches it: legacy
  directories have another id (`Resume.FoundStateIsOfTheSameNodes`). The id is 48 bits, so the check still matters: for
  any id function, runs with a configuration object keep directories separate (`Resume.ConfiguredRunsStaySteady`), and one
  without discards another node set's state but measures beside its files (`Resume.UnconfiguredRunsMixNodeSets`).
- With REQUIRED a mismatch would clear the state that is then reported missing (`Resume.RequiredClearsWhatItRefuses`).
- Without a configuration object, or with an unreadable state file, a new state starts over old result files
  (`Resume.OpenState`).
- A fractional depth or concurrency generates a task that the rebuild on resume refuses (`TaskList.ProductRebuilds`).
- `canonical_host_key` cannot tell an empty list from one empty name, and that is all it confuses on names without NUL
  (`HostKey.SameKeyIff`); a NUL inside a name reads as the boundary between two (`HostKey.NulIsABoundary`).
- One solo container name on two hosts shares one metadata record, which is dropped although one host failed
  (`StopAll.SharedSoloNameLosesItsRecord`). Records follow their jobs, whatever hosts fail, if and only if all jobs that
  share the record run on the same hosts (`StopAll.RecordKeptIffJobLive`). A dry run of `stop_all` leaves discovery
  errors out of its report (`StopAll.StopAll`).

## Model

| member | source | states |
|---|---|---|
| HostKey.KeyIdentifiesMultiset | src/sparkrun/benchmarking/run_state.py:42-52 | on non-empty, NUL-free names two lists have the same key if and only if they are permutations of each other |
| HostKey.SameKeyIff | src/sparkrun/benchmarking/run_state.py:42-52 | on NUL-free names, empty ones included, keys are equal if and only if the multisets are, or both lists are blank (empty, or one empty name) |
| HostKey.NulIsABoundary | src/sparkrun/benchmarking/run_state.py:52 | a name with a NUL inside has the key of the two names around it, for every pair in order |
| HostKey.MatchIsMultisetEquality | src/sparkrun/benchmarking/run_state.py:326-339 | a state matches a host list exactly when it recorded none or recorded the same multiset |
| RunState.RemoveFirstIs | src/sparkrun/benchmarking/run_state.py:415-416 | removing an index from a duplicate-free list removes it and nothing else |
| RunState.CompletedKeepsSound | src/sparkrun/benchmarking/run_state.py:407-416 | marking completed keeps both lists duplicate-free, disjoint and in range, adds exactly that index and takes it off the failed list |
| RunState.FailedKeepsSound | src/sparkrun/benchmarking/run_state.py:418-422 | marking a not-completed index failed keeps the lists sound and adds exactly that index |
| RunState.CompleteMeansTotal | src/sparkrun/benchmarking/run_state.py:444-459 | nothing is pending exactly when the completed list has as many entries as the schedule, and then nothing is failed |
| RunState.BenchmarkRunState.MarkCompleted | src/sparkrun/benchmarking/run_state.py:407-416 | the new state is the completed transform of the old; nothing completed is lost |
| RunState.BenchmarkRunState.MarkSessionStarted | src/sparkrun/benchmarking/run_state.py:424-427 | one more running entry; numbering 1..session_count is kept |
| RunState.BenchmarkRunState.MarkSessionEnded | src/sparkrun/benchmarking/run_state.py:429-433 | only the last session entry changes |
| RunState.BenchmarkRunState.NextPending | src/sparkrun/benchmarking/run_state.py:444-455 | the least index below the total that is not completed, or none when all are |
| RunState.BenchmarkRunState.IsComplete | src/sparkrun/benchmarking/run_state.py:457-459 | true exactly when nothing is pending |
| TaskList.BuildTaskList | src/sparkrun/benchmarking/llama_benchy.py:408-472 | an explicit schedule gives one task per entry or the complaint about the first invalid one; without one it is the product of the axes; every task carries its own position, is pinned to the one depth and the one concurrency of its entry, and prints the depth first |
| TaskList.ProductIsDepthMajor | src/sparkrun/benchmarking/llama_benchy.py:448-470 | in a generated list depth i with concurrency j stands at position i times the number of concurrencies plus j, with the other arguments as in the base |
| TaskList.EntryOverridesBase | src/sparkrun/benchmarking/llama_benchy.py:434-439 | an entry's own keys override the base arguments, depth and concurrency are pinned, the rest is the base |
| TaskList.ScheduleRebuilds | src/sparkrun/api/_benchmark.py:1449 | rebuilding from the saved entries of an explicit schedule gives back the same list |
| TaskList.ProductRebuilds | src/sparkrun/api/_benchmark.py:1449 | rebuilding a generated product gives back the same list if and only if every depth and concurrency is an integer |
| TaskList.KeysCoverProduct | src/sparkrun/benchmarking/llama_benchy.py:528-534 | the keys of a generated list are exactly depths times concurrencies |
| TaskList.SuffixNamesTheCell | src/sparkrun/benchmarking/llama_benchy.py:478-489 | two tasks with a suffix have the same one exactly when their whole depths and concurrencies agree |
| TaskList.SuffixIs | src/sparkrun/benchmarking/llama_benchy.py:478-489 | a task's file is named after its whole depth and then its whole concurrency |
| Text.NumeralsReadLeftToRight | src/sparkrun/benchmarking/scheduler.py:126-128 | printed numbers have their most significant digit first and are filled to three places with zeros in front |
| Aggregator.NameGivesIndex | src/sparkrun/benchmarking/scheduler.py:126-128 | the number in front of a printed artifact name is the index, for any number of digits and any suffix |
| Aggregator.NamesDistinct | src/sparkrun/benchmarking/scheduler.py:126-128 | different indices have different artifact names |
| Aggregator.SortingRestoresSchedule | src/sparkrun/benchmarking/aggregator.py:35-38 | sorting any arrangement of the directory by leading number gives schedule order |
| Aggregator.ConsolidatePerTask | src/sparkrun/benchmarking/llama_benchy.py:491-526 | the first dict's model, or nothing at all without a dict; all genuine rows; the greatest whole concurrency |
| Aggregator.RowsKeepTheirOrder | src/sparkrun/benchmarking/llama_benchy.py:506-516 | every row of every document is in the merged list once, at the place that the number of rows before it gives, and the list has no other entries |
| Aggregator.Peak | src/sparkrun/benchmarking/llama_benchy.py:516-520 | an upper bound of all reported concurrencies that is attained, or zero |
| Aggregator.ConsolidateResults | src/sparkrun/benchmarking/aggregator.py:20-52 | any listing of any files is merged by leading number, skipping unreadable and non-dict files |
| Aggregator.ListingOrderIsIrrelevant | src/sparkrun/benchmarking/aggregator.py:35-38 | where leading numbers tell files apart, the order of the listing does not reach the result |
| Sorting.SortStable | src/sparkrun/benchmarking/aggregator.py:35-38 | files with the same number stay in the order of the listing |
| Aggregator.ListingGivesView | src/sparkrun/benchmarking/aggregator.py:20-52 | any listing of a schedule's artifacts gives the merge of their documents in schedule order |
| Aggregator.CoverageKeys | src/sparkrun/benchmarking/llama_benchy.py:536-546 | a depth and a concurrency are covered exactly when some row has that context size and that concurrency |
| Aggregator.GapAnalysis | src/sparkrun/benchmarking/aggregator.py:55-87 | exactly the uncovered positions, once each and in schedule order |
| Aggregator.ProductGapIff | src/sparkrun/benchmarking/aggregator.py:55-87 | in a generated list the task of a depth and a concurrency is a gap if and only if no row has that context size and that concurrency |
| Aggregator.ScheduleGapIff | src/sparkrun/benchmarking/aggregator.py:55-87 | the same for an explicit schedule |
| Aggregator.ReportedIsCovered | src/sparkrun/benchmarking/aggregator.py:55-87 | a task whose own file holds a row for its key is never a gap |
| Aggregator.OwnRowIsNoGap | src/sparkrun/benchmarking/aggregator.py:55-87 | in a generated list a task whose own file holds a row of its depth and concurrency is not a gap |
| Schedule.RunKeeps | src/sparkrun/benchmarking/scheduler.py:91-264 | every run, with kills anywhere, keeps all the invariants below |
| Schedule.ProgressStaysSound | src/sparkrun/benchmarking/scheduler.py:101-186 | the saved lists stay duplicate-free, disjoint and within the schedule |
| Schedule.CompletedWasEarned | src/sparkrun/benchmarking/scheduler.py:161-170 | every saved completion had a subprocess exit 0 that no later gap pass re-queued |
| Schedule.AtMostOneExitIsLost | src/sparkrun/benchmarking/scheduler.py:132-170 | over any number of kills, interrupts and crashes at most one earned exit is missing from the saved state, and it is the next index to start |
| Schedule.LaunchesAreAccountedFor | src/sparkrun/benchmarking/scheduler.py:109-186 | launches are saved completions, completions since re-queued, saved failures, launches cut short and the one in flight |
| Schedule.SessionsAreAccountedFor | src/sparkrun/benchmarking/run_state.py:424-438 | sessions are numbered from 1; those left running are the kills and the live one; the crash count is the number of crashed sessions |
| Schedule.RecordedHostsStay | src/sparkrun/api/_benchmark.py:816-823 | hosts once recorded stay recorded over every run; a session may bring a new cluster id |
| Schedule.EndClosesItsSession | src/sparkrun/benchmarking/scheduler.py:188-264 | an exit closes the one open session, the last, and leaves earlier entries alone |
| Schedule.GapsAreOfTheFinalFiles | src/sparkrun/benchmarking/scheduler.py:206-217 | the view given to gap analysis is that of the result files as they then are, with everything completed |
| Schedule.CompletedMeansAll | src/sparkrun/benchmarking/scheduler.py:231-239 | a session that ends as completed has every index completed and none failed |
| Schedule.LaunchesFollowTheSchedule | src/sparkrun/benchmarking/scheduler.py:109-114 | no index starts before every smaller one is completed, and no completed index starts |
| Schedule.WarmUntilFirstSuccess | src/sparkrun/benchmarking/scheduler.py:98-170 | warm-up is asked for exactly until the session's first recorded success |
| Schedule.HonestNeverReruns | src/sparkrun/benchmarking/scheduler.py:206-217 | if every exit 0 leaves a row for its own key, no completed index is ever launched again and gap passes are empty |
| InnerLoop.LaunchesAreCompletionsPlusFailures | src/sparkrun/benchmarking/scheduler.py:109-186 | launches of turns that went on are indices newly completed plus failures, with no failures under exit_on_first_fail |
| InnerLoop.RunsForeverIffStuck | src/sparkrun/benchmarking/scheduler.py:109-178 | the inner loop never stops if and only if failures do not end it and, from some turn on, something is pending and every attempt fails |
| ScheduleRun.Session.Attempt | src/sparkrun/benchmarking/scheduler.py:114-184 | one turn is a run of the protocol whose new state is that of the outcome taken, and is saved |
| ScheduleRun.Session.DoLoop | src/sparkrun/benchmarking/scheduler.py:101-186 | the loop stops at the first turn that does not go on, with the state of those that did; with exit_on_first_fail within the pending count of launches |
| ScheduleRun.Session.QueueGaps | src/sparkrun/benchmarking/scheduler.py:206-215 | the gaps of the current files are removed from the completed list and nothing else is |
| ScheduleRun.Session.GapPass | src/sparkrun/benchmarking/scheduler.py:206-229 | one re-queue, then at most as many launches as gaps under exit_on_first_fail |
| ScheduleRun.Session.Finish | src/sparkrun/benchmarking/scheduler.py:231-247 | a drained schedule always finishes as a success with all indices completed |
| ScheduleRun.Session.RunSchedule | src/sparkrun/benchmarking/scheduler.py:60-264 | every exit path, exceptions from subprocess handling, consolidation and gap analysis included, saves and closes the one session it added, leaving earlier ones alone; success means all completed; failure means a crash or the first failure; launches are bounded by pending plus gaps, at most twice the schedule |
| Benchmark.BuildOnce | src/sparkrun/api/_benchmark.py:680 | given arguments build exactly one task list or fail, and the list is numbered by position |
| Benchmark.Execute | src/sparkrun/api/_benchmark.py:680-1045 | build, open, run: a directory that has a history of the schedule protocol has one again afterwards, the old one continued exactly when its state was reused; a success leaves every task completed |
| StateLock.LiveLockLooksStaleIff | src/sparkrun/benchmarking/run_state.py:144-162 | a live holder's lock is judged stale by a process exactly when it is over age, the process may not read it, the holder is on its host and it may not signal it, or the holder's host has no name and no process it may signal has that PID on its own host |
| StateLock.StepKeepsOwned | src/sparkrun/benchmarking/run_state.py:191-277 | every step keeps each holder's own payload in the lock file |
| StateLock.MutualExclusion | src/sparkrun/benchmarking/run_state.py:191-277 | at most one live process is inside, over every interleaving of create, reclaim, release, death and PID reuse, provided that create-and-write and read-decide-unlink are single steps, holds stay under the ceiling, hosts are named, and live processes may write the directory, read each other's locks and signal each other on one host |
| StateLock.DeadOwnersLockIsReclaimed | src/sparkrun/benchmarking/run_state.py:241-263 | the lock of a process that died on this host passes to the next one that asks and may write the directory |
| StateLock.ReleaseSparesAnothersLock | src/sparkrun/benchmarking/run_state.py:264-277 | leaving removes the lock exactly when it may be removed and is our own, damaged or not readable to us; another owner's lock is spared exactly when it can be read or cannot be removed |
| StateLock.AcquiringEnds | src/sparkrun/benchmarking/run_state.py:224-262 | an acquiring process is inside or refused after at most six of its own steps, whatever the others do |
| StateLock.UnlinkIsSafeIffUnheld | src/sparkrun/benchmarking/run_state.py:252-255 | the reclaim's unlink, on its own, keeps holders' locks exactly while nobody holds one or where it is not permitted |
| StateLock.TwoReclaimersBothEnter | src/sparkrun/benchmarking/run_state.py:243-256 | with reading and unlinking apart, two reclaimers end up inside together |
| StateLock.LateReaderEvictsNewHolder | src/sparkrun/benchmarking/run_state.py:243-256 | with reading and unlinking apart, a reader of a just-released lock joins a new holder |
| StateLock.EmptyLockIsStolen | src/sparkrun/benchmarking/run_state.py:226-250 | with create and write apart, a lock caught empty is taken from its creator |
| StateLock.OldHolderIsEvicted | src/sparkrun/benchmarking/run_state.py:154-156 | a hold over the ceiling is taken from its live owner |
| StateLock.NamelessHostIsEvicted | src/sparkrun/benchmarking/run_state.py:158-160 | a lock written without a host name is taken from its live owner by another host |
| StateLock.OtherUsersLockIsStolen | src/sparkrun/core/pending_ops.py:81-85 | a live lock whose file the next process may not read, or whose holder it may not signal on their host, is taken |
| StateLock.UnwritableDirectoryIsUnlocked | src/sparkrun/benchmarking/run_state.py:229-233 | where the lock cannot be created, two processes go on inside without one |
| Resume.SameIdIff | src/sparkrun/benchmarking/run_state.py:99-122 | two runs share an id if and only if intent, framework, profile, arguments, schedule, fingerprint and node multiset agree |
| Resume.RelaunchKeepsId | src/sparkrun/benchmarking/run_state.py:99-107 | a new placement token does not change the id |
| Resume.OpenState | src/sparkrun/api/_benchmark.py:743-842 | for every mode and answer, which state is kept, refreshed, refused or replaced and which files go: under AUTO a state of the same nodes is discarded exactly when the caller, asked about a complete state, says re-measure, or, about an incomplete one, says no; and when a new state starts over an empty directory |
| Resume.ReopenState | src/sparkrun/api/_benchmark.py:1385-1415 | a resume takes the saved state as it is, measured on the hosts of the job metadata, if and only if some task is not completed and there are such hosts |
| Resume.ModesKeepTheirWord | src/sparkrun/api/_benchmark.py:766-805 | FRESH never reuses; REQUIRED reuses or refuses |
| Resume.RequiredClearsWhatItRefuses | src/sparkrun/api/_benchmark.py:744-768 | REQUIRED clears exactly the found states that it refuses, where there is a configuration object |
| Resume.ReuseIsOfTheSameNodes | src/sparkrun/api/_benchmark.py:745-764 | even under an id collision a reused state is of this run's nodes or recorded none |
| Resume.FoundStateIsOfTheSameNodes | src/sparkrun/api/_benchmark.py:709-764 | with an injective digest, after any launches, runs and resumes, the state found under an id records the same node multiset, so the mismatch cannot arise |
| Resume.StepKeepsSteadyIff | src/sparkrun/api/_benchmark.py:743-842 | under any id function a run upsets a directory exactly when it opens over files of another node set that it did not clear, and a resume exactly when its metadata names other hosts than the recorded ones |
| Resume.HistoryIsSteadyIff | src/sparkrun/api/_benchmark.py:709-842 | over any sequence of launches, runs and resumes, directories keep to their recorded node sets if and only if every event is harmless in that sense |
| Resume.ConfiguredRunsStaySteady | src/sparkrun/api/_benchmark.py:744-764 | under any id function, colliding or not, runs with a configuration object and resumes that do not stray keep every directory to its recorded node set |
| Resume.UnconfiguredRunsMixNodeSets | src/sparkrun/api/_benchmark.py:762-764 | without a configuration object two runs with colliding ids leave files of two node sets in one directory |
| Resume.SessionsKeepToOneNodeSetIff | src/sparkrun/api/_benchmark.py:1363-1478 | with an injective digest the files and open sessions of every directory keep to its one recorded node set if and only if no resume strays from the recorded hosts |
| Resume.ResultFilesAreOfOneNodeSetIff | src/sparkrun/api/_benchmark.py:709-842 | with an injective digest the result files of every directory stay of its one recorded node set if and only if no session measures on other nodes than those recorded |
| Resume.TokenIgnoresOrder | src/sparkrun/orchestration/job_metadata.py:377-386 | the order in which candidates are named does not reach a deterministic placement token |
| Resume.ResumeMixesNodeSets | src/sparkrun/api/_benchmark.py:1363-1478 | two solo launches on swapped candidates and one resume leave files of two nodes in one directory |
| Snapshot.CanonicalIff | src/sparkrun/orchestration/job_metadata.py:419-430 | an id parses exactly when it is the prefix, sixteen and twelve lower-case hexadecimal digits in their places, and perhaps a newline |
| Snapshot.ParseComposed | src/sparkrun/orchestration/job_metadata.py:405-430 | parsing a composed cluster id gives its halves back |
| Snapshot.ComposeParsed | src/sparkrun/orchestration/job_metadata.py:419-430 | composing the halves of a parsed id gives the id back if and only if it has no trailing newline, and without that newline otherwise |
| Snapshot.PrefixMeansParsed | src/sparkrun/orchestration/job_metadata.py:419-430 | on canonical ids the prefix test and the parser see the same intent |
| Exclusion.StatusExcludingIntent | src/sparkrun/api/_hosts.py:433-477 | the loop computes the exclusion whose laws follow |
| Exclusion.ExclusionConservesSlots | src/sparkrun/api/_hosts.py:455-474 | used plus free is conserved, free never drops, exactly the own workloads go, used stays the sum of claims, and GPUs are treated one by one or the host is left as it is |
| Exclusion.ExclusionFreeIsExact | src/sparkrun/api/_hosts.py:461-463 | the rebalanced free count is the true one exactly when the host was not over-committed or nothing was subtracted |
| Exclusion.ExclusionComposes | src/sparkrun/api/_hosts.py:433-477 | excluding one set and then another is excluding both, GPU resets included |
| Exclusion.ExclusionIdempotentAndCommutative | src/sparkrun/api/_hosts.py:433-477 | hence exclusion is idempotent and order-independent |
| Exclusion.UnlistedGpuBreaksComposition | src/sparkrun/api/_hosts.py:455-474 | without GPU workloads being listed on their host this fails |
| Pack.ExclusionFreesGpuIff | src/sparkrun/api/_hosts.py:464-473 | exclusion frees a busy GPU exactly when all of its workloads, at least one, were own |
| Pack.PackWithOccupancy | src/sparkrun/schedulers/_occupancy_base.py:197-355 | a placement has one distinct eligible slot per rank on distinct candidate hosts, in the preference order, a host only after every earlier one is full, none of them a partially busy host that reports slots only; a refusal for capacity means no placement exists, and one for layout that hardware is mixed or some host's use is ambiguous |
| Pack.EligibleIs | src/sparkrun/schedulers/_occupancy_base.py:467-516 | a GPU is eligible exactly when it is in range, shows no use, and is not among the leading ones counted as used |
| Pack.PlacedWithinRoom | src/sparkrun/schedulers/_occupancy_base.py:467-532 | no placement whatever has more ranks than there are eligible GPUs on the hosts |
| Pack.SlotLevelTargetIsIdle | src/sparkrun/schedulers/_occupancy_base.py:266-275 | a slot-level host that is given ranks counts no used slot, and gets at most as many ranks as it has GPUs |
| Pack.PlacementFits | src/sparkrun/schedulers/_occupancy_base.py:467-532 | no host gets more ranks than its hardware leaves after the used slots of the snapshot |
| Pack.PlacementWithinHardware | src/sparkrun/schedulers/_occupancy_base.py:467-532 | whatever the snapshot shows or leaves out, no host gets more ranks than it has GPUs |
| Pack.PlacementAvoidsBusyGpus | src/sparkrun/schedulers/_occupancy_base.py:491-505 | with per-GPU detail no rank is put on a GPU that shows a workload, utilisation or memory in use |
| Hosts.ResolveEffectiveHosts | src/sparkrun/api/_hosts.py:151-279 | what each path returns, notes included, over the cap the scheduler's choice or the first hosts of the list; on sensible input every answer is a non-empty distinct subset within max_nodes, solo exactly when one host |
| Hosts.PickSingleHost | src/sparkrun/api/_hosts.py:386-430 | the scheduler's one-rank choice, or its error |
| Hosts.PackingSchedules | src/sparkrun/schedulers/_occupancy_base.py:355 | occupancy placements meet what host resolution asks of a scheduler |
| Eviction.Sweep | src/sparkrun/api/_run.py:645-663 | every superseded deployment with exactly the hosts it was seen on, and exactly those that touch a target |
| Eviction.StoppedIs | src/sparkrun/api/_run.py:672-673 | a stop takes away exactly what it is aimed at and what it removes |
| Eviction.Cluster.Evict | src/sparkrun/api/_run.py:578-684 | each deployment that the query shows on a target is stopped on every candidate host it was shown on and no other workload is; a failed query stops and observes nothing; what is reported as evicted, observed and confirmed |
| Halves.TestsDifferOnLookalikes | src/sparkrun/api/_run.py:657 | eviction's test and planning's differ on lookalike ids and nowhere else |
| Halves.LeftOnTarget | src/sparkrun/api/_run.py:645-684 | whatever the query showed and the stops did, a target host keeps exactly what goes by another id and was not, as superseded, shown and removed |
| Halves.ProviderHalvesAgree | src/sparkrun/api/_run.py:298-329 | on what the status providers report and for every launch but an override of another intent, what is left on the targets is what exclusion leaves of the same loads if and only if every earlier deployment of the intent there is shown to the eviction and removed |
| Halves.HalvesAgree | src/sparkrun/api/_run.py:298-329 | for any loads, query, stops and cluster id, the two agree if and only if on the targets what has the launch's own id is of its intent, the intent's other deployments are shown and removed, and no lookalike is |
| Halves.ALookalike | src/sparkrun/api/_run.py:647-658 | an id that eviction's test takes and planning's does not |
| Halves.OverrideSplitsTheHalves | src/sparkrun/api/_run.py:191-196 | under an override of another intent they agree exactly when no target runs the planned intent, nor anything of the other that has the launch's own id or is shown and removed |
| Halves.LeftOverExactly | src/sparkrun/api/_run.py:606-684 | everywhere: which workloads go, and that siblings off the targets, foreign ones and whatever the query does not show stay |
| Halves.ForeignUntouched | src/sparkrun/api/_run.py:606-608 | whatever the query shows and the stops do, no foreign workload moves |
| Relaunch.OfferedIff | src/sparkrun/schedulers/_occupancy_base.py:266-283 | a host offers GPUs to a plan, and then all of them, if and only if no workload of another intent there is shown to the planning query, whatever counts are reported |
| Relaunch.TargetLookedIdle | src/sparkrun/api/_run.py:147-161 | a target of a packed plan showed nothing but the planned intent and gets at least one rank and at most as many as it has GPUs |
| Relaunch.CountsAloneDoNotProtect | src/sparkrun/schedulers/_occupancy_base.py:266-275 | without the pass-over of partially busy hosts, container counts leave GPUs that look free and are not |
| Relaunch.TargetLoadIs | src/sparkrun/api/_run.py:298-329 | for every start of every plan, a target then carries exactly the claims of the intent's spared deployments, of the other intents at the start, and of the new ranks |
| Relaunch.OverCommitHasACause | src/sparkrun/api/_run.py:641-683 | when stops report honestly, a target over its hardware runs an earlier deployment that the eviction was not shown or whose stop raised or did not confirm, or a workload of another intent that arrived after planning or was not shown to it |
| Relaunch.RunsAloneIff | src/sparkrun/api/_run.py:298-329 | a target runs the new launch alone if and only if no other intent runs there at the start and the earlier deployments are shown and removed |
| Relaunch.StartExactly | src/sparkrun/api/_run.py:319-329 | on every host, target or not, what runs after a start: the new containers on targets, and what ran before but for the launch's own id on targets and for workloads of its intent that the query showed on this candidate host, whose deployment it showed on a target, and that the stop removes |
| Relaunch.LaunchKeepsOthers | src/sparkrun/api/_run.py:606-608 | whatever the queries show and the stops do, a start moves no workload of another intent and keeps ids distinct and well labelled |
| Relaunch.LaunchKeepsGoodIff | src/sparkrun/api/_run.py:298-329 | a start keeps every host within its hardware and one deployment per intent and host if and only if on every target the earlier deployments are shown and removed and the other intents leave room for the new ranks |
| Relaunch.MakePlan | src/sparkrun/api/_run.py:147-220 | query, exclude and place: the plan holds the whole candidate list and is packed against the excluded answer in preference order; a refusal for capacity means no placement exists, one for layout has its cause |
| Relaunch.StartPlan | src/sparkrun/api/_run.py:256-329 | a plan made earlier is started on the loads as they now are: evict, clean up and start give the new loads, which are good exactly when the start was safe; the ids observed are exactly those shown on candidates; all is confirmed exactly when no stop aimed at an earlier deployment raised or failed to confirm |
| LaunchHistory.HistoriesStayGoodIff | src/sparkrun/api/_run.py:223-329 | over every history of plans, starts and stops, no host exceeds its hardware and no intent runs twice on one host, if and only if every start is safe on the loads it finds |
| LaunchHistory.StopExactly | src/sparkrun/api/_stop.py:179-189 | a stop by name takes that deployment off the hosts it is aimed at, as far as the stop removes it, and nothing else |
| LaunchHistory.StaysCurrentIff | src/sparkrun/api/_run.py:232-239 | a plan stays current exactly until a plan of another intent with a common target is started |
| LaunchHistory.CarefulHistoriesStayGood | src/sparkrun/api/_run.py:298-329 | however plans, starts and stops interleave, the cluster stays good if every started plan was packed on an answer that showed all of its targets, no other intent was started there since, and its intent's earlier deployments are shown and removed |
| LaunchHistory.MissedHostIsOverCommitted | src/sparkrun/api/_status.py:47-49 | a busy host that the planning query misses gets a rank and is over-committed, whatever the eviction sees and does |
| LaunchHistory.MissedEvictionIsOverCommitted | src/sparkrun/api/_run.py:641-643 | when the eviction's query fails or misses a target, no stop is issued and the old deployment runs on beside the new one |
| LaunchHistory.CrossedPlansOverCommit | src/sparkrun/api/_run.py:232-239 | two plans made on full answers of the same idle host both start and over-commit it |
| LaunchHistory.HistoriesKeepOthers | src/sparkrun/api/_run.py:606-608 | over every history, whatever the queries miss and the stops do, an intent nobody starts or stops keeps its workloads on every host |
| Intent.FindRunningIntent | src/sparkrun/api/_intent.py:86-127 | the matching deployment on the most hosts, least id on ties, its hosts complete and in query order, all rivals listed; none exactly when none runs |
| Intent.WidestComesFirst | src/sparkrun/api/_intent.py:115-116 | the answer and its rivals in order: more hosts first, then code-point order of the ids |
| Intent.HostsInQueryOrder | src/sparkrun/api/_intent.py:103-110 | the hosts of the answer stand in the order in which the snapshot first shows them |
| Intent.RepresentativeRuns | src/sparkrun/api/_intent.py:110-117 | the workload of the answer is one of the deployment, shown on the first of its hosts |
| Text.LexLeIs | src/sparkrun/api/_intent.py:115 | the order of ids is that of code points: a prefix, or smaller at the first difference |
| Intent.AnswerUnique | src/sparkrun/api/_intent.py:100-127 | there is one right answer |
| Intent.NothingFoundAfterExclusion | src/sparkrun/api/_intent.py:71-75 | on a snapshot with the intent excluded nothing is found |
| Intent.ExcludingAnotherChangesNothing | src/sparkrun/api/_intent.py:100-127 | excluding a disjoint intent leaves the answer unchanged |
| Heredoc.HeredocDelimiter | src/sparkrun/builders/uv_venv.py:216-230 | the loop ends with the shortest extension that is no stripped line of the content |
| Heredoc.StageLines | src/sparkrun/builders/uv_venv.py:245-251 | the staging loop prints a text from which the shell recovers every file, whole but for the newlines at its end |
| Heredoc.LineIsPythonLine | src/sparkrun/builders/uv_venv.py:227 | a newline-delimited line without other breaks is one of the lines of splitlines |
| Heredoc.BodyReadsBack | src/sparkrun/builders/uv_venv.py:250-251 | a body with no line equal to the delimiter is read whole and reading resumes right after it |
| Heredoc.StagedFilesReadBack | src/sparkrun/builders/uv_venv.py:245-251 | for any files and any script after them the shell writes every file into the staging directory under its name, whole but for the newlines at its end and with one newline, in order, and goes on exactly after them |
| StopAll.ContainersByHost | src/sparkrun/api/_stop_all.py:149-157 | every discovered container under its host, in order |
| StopAll.EveryContainerOnce | src/sparkrun/api/_stop_all.py:149-157 | the sweep has one container for each group member, named after cluster and role on the member's host, and then one for each solo entry, in order |
| StopAll.NamesAreThoseAtHost | src/sparkrun/api/_stop_all.py:149-157 | the names filed under a host are those of its containers, in their order |
| StopAll.GroupByExecutor | src/sparkrun/api/_stop_all.py:160-177 | each executor's batch holds exactly the containers it reported, host by host and in order |
| StopAll.EachToItsExecutor | src/sparkrun/api/_stop_all.py:160-177 | a container is in its own executor's batch, as often as discovered, and in no other |
| StopAll.RegroupingGivesBack | src/sparkrun/api/_stop_all.py:160-177 | putting the batches together gives back every host's container multiset |
| StopAll.VerdictIsUnanimous | src/sparkrun/orchestration/primitives.py:616-658 | a host's recombined result is a success exactly when every executor with something there succeeded |
| StopAll.VerdictSumsRemoved | src/sparkrun/orchestration/primitives.py:616-658 | recombining loses no removal: the host's count is the sum over its executors |
| StopAll.RemovalsAddUp | src/sparkrun/orchestration/primitives.py:630-658 | what is removed on a host adds up over the executors that have something there |
| StopAll.HostsAddUp | src/sparkrun/api/_stop_all.py:123 | what is removed in all adds up over the hosts |
| StopAll.EverySweptHostHasAVerdict | src/sparkrun/api/_stop_all.py:105-109 | no swept host is without a result |
| StopAll.JobStore.ForgetStopped | src/sparkrun/api/_stop_all.py:125-137 | a record is dropped exactly when some job of that id has no failed host; clean jobs are counted |
| StopAll.StopAll | src/sparkrun/api/_stop_all.py:71-146 | stopped and failed hosts split the swept hosts by confirmation, removals are summed; dry runs and empty discoveries change nothing |
| StopAll.SoloRecordIsItsId | src/sparkrun/api/_stop_all.py:135 | the record of a solo container named after a cluster id is that id's |
| StopAll.RecordKeptIffJobLive | src/sparkrun/api/_stop_all.py:125-137 | for a discovered id, its record survives exactly while a failed host may still carry a job of it, whatever hosts fail, if and only if all jobs that share the id run on the same hosts |
| StopAll.SharedSoloNameLosesItsRecord | src/sparkrun/api/_stop_all.py:132-137 | a solo name shared by two hosts loses its record although one host failed |
| StopAll.SuccessNeedsEveryHost | src/sparkrun/api/_models.py:329-332 | a real sweep succeeds exactly when no host was unqueried and every swept host confirmed |

## Left out

- StateLock.MutualExclusion: errors other than missing permissions, such as a full disk while the payload is written; permissions do not change during a run.
- StateLock: the release's read and unlink are separate steps, but a lock file rewritten by something other than this protocol is not modelled.
- Schedule: a mark and the save after it are one step, because nothing can observe the state between them; an interrupt outside the `try` of the inner loop, which leaves its session open, counts as a kill.
- Schedule: a result file changes only while its own subprocess runs; one that outlives a killed session and writes later is not modelled.
- ScheduleRun.Session.RunSchedule: an exception raised by a save, or by the first consolidation before the session opens; log files, progress display, the pinned framework version and command building.
- Aggregator.ConsolidateResults: the coverage rules of other plugins, which identify gaps by position; JSON values that are not numbers, strings, lists or dicts.
- Resume.OpenState: submission ids, framework version detection, `measured_at`, and entries that `clear_state_dir` fails to delete.
- Benchmark.Execute: a state found under an id is of the schedule built from these arguments, because the id digests it; the lock, export and publishing around the run are not part of it.
- Resume.HistoryIsSteadyIff: a directory that records no hosts, or whose state file is unreadable, has no node set to keep to until a run records one; hand-edited directories are not modelled.
- Resume.ReopenState: whether the cluster is running, and which of its addresses is measured.
- Pack.PackWithOccupancy: whole-GPU claims only; fractional claims, load scores, memory budgets beyond what the selection hook decides, and explicit layouts. Without occupancy it stands for the greedy fallback too, which packs the same way in the given order; the fallback's own error types do not.
- Hosts.ResolveEffectiveHosts: the scheduler is a parameter bound only by its contract; message texts and error details are reduced to constructors.
- LaunchHistory.CarefulHistoriesStayGood: covers plans packed on slot-level answers with canonical ids, which is what the status providers report; launches without a placement (one candidate host, or no parallelism set) make no capacity claim.
- LaunchHistory.HistoriesStayGoodIff: evict, clean up and start are one step, so two launches that interleave between the first container stopped and the last one started are not modelled, nor are launches that fail half-way.
- Intent.FindRunningIntent: recipe, runtime and start time of the representative workload travel with it but are not separate fields.
- Heredoc.StagedFilesReadBack: file names are free of quotes, as the two names the source uses are; the rest of the provisioning script is an arbitrary tail.
- StopAll.StopAll: error texts, the marker line that carries a removed count, and executor resolution.
- Loading of recipes, image distribution, container runtimes, Kubernetes, SSH, the arena, telemetry, the proxy, the registry and all rendering: input, output or presentation.
- Tuning, the eugr image decision, build caches, `list_jobs`, recipe search and self-update: they would only add easy members.
