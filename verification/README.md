# System Upgrade Controller: the rollout protocol, modelled and proved

A Plan pushes an upgrade across a fleet of Kubernetes nodes, a few nodes at a time. The
work is spread over handlers that never share a transaction: the plan's status handler,
its generating handler, the job event handler, and the generated wrapper that decides
what is persisted. This project models that protocol and proves what it guarantees.

## How the model is built

- `text`, `labels`, `types`, `sequences`: strings in Go's order, label selectors, the API
  objects, sorting. SHA sums, secret hashing, variable expansion, number formatting and the time
  window are function-valued parameters (`Config`, `PlanSpec.window`).
- `conditions`: the condition list as a value, and a `Draft` that tracks what `obj` sees and
  what a by-value status sharing its array sees. `object` is the mutable object itself: an
  array of conditions, `append` that may move it, and writes in place.
- `allocator`: `SelectConcurrentNodes` against a declarative `IsSelection` that has at most one solution.
- `handlers`, `jobs`: the handlers and `job.New` as functions; `controllers` and
  `jobcontroller` are the same code as it mutates objects, maps and queues, proved equal to
  those functions.
- `rollout`: the protocol as a state machine. Resource versions are the list of everything
  ever written, so a stale read is an old index and a write succeeds only on the last one.
  A pass selects, applies its jobs one at a time (any order, possibly failing part way), records the
  version, and writes the status, all as separate steps. A job event is read and acted on in
  separate steps. Jobs succeed or fail, the controller restarts and forgets, the clock moves, and
  users edit the plan and the nodes.
- `batch`, `completion`, `membership`: what holds under arbitrary edits, and so does the first half of
  `provenance`. `safety`, `slots`, the rest of `provenance`, `progress`: what holds while one spec and hash
  roll out. `rounds`: why taking turns is enough, for any measure. `quiescence`: fixpoints of the handlers.
  `applies`, `triggers`: the applied-version record, secret and node events.
- `verdicts`, `readiness`, `events`, `digests`: what a reader of the API finds after a call of the status handler, of the
  generating handler and of the job handler, branch by branch, in terms of the entries, labels and fields themselves; and
  what the hash of a plan tells apart.
- `overtaking`, `staleness`, `reopening`: runs in which something goes wrong, and the exact conditions.

## Main results

1. **Concurrency safety** (`Safety.ConcurrencySafety`): in every state of every rollout, unfinished
   unpaused jobs are on hosts of the persisted `Applying`, which names each host once; neither it nor
   the number of busy nodes exceeds the largest limit so far. Stale reads, conflicts, restarts, partial
   applies and jobs left over from other hashes and versions are all included. The one condition on the plan
   worker is exact over all continuations (`Overtaking.TimelyIsExact`).
2. **No lost slot** (`Slots.NoSlotLost`), for plans that are ready, with the exact condition on the job
   handler's read and runs that lose a slot without it (`Staleness`).
3. **Progress** (`Progress.RoundsEndAtGoal`): every round of moves short of the goal strictly decreases the work,
   whatever its moves and their order, the goal is stable, and any schedule of as many rounds as there was work
   ends with every matching node labelled and Complete true.
4. **Provenance and spacing** (`Provenance.LabelProvenance`, over any run and any edits;
   `Provenance.SlotFreedAfterDelay`).
5. **Under arbitrary edits**: the batch bound, an honest Complete, pinning by an unfinished node,
   window epochs, sorted batches (`Batch.BatchBound`, `Completion.*`, `Membership.TestsAgree`).
6. **Allocator** (`Allocator.SelectConcurrentNodes`, `Allocator.SelectionUnique`): declarative spec, exact size,
   independence of listing order.
7. **Aliasing and quiescence** (`Conditions.WriteThrough`, `Quiescence.SecondPassWritesNothing`).
8. **Every branch has its outcome**: an invalid plan is recorded as such and starts nothing
   (`Verdicts.InvalidPlanRecorded`, `Verdicts.InvalidPlanStartsNothing`), work and hosts come only from versions that showed valid and
   resolved (`Readiness.WorkComesFromReadyVersions`, `Readiness.HostsComeFromReadyVersions`), the controller never cordons and
   always uncordons (`Events.OnlyEditsCordon`, `Events.SuccessUncordons`), and a new version reopens the nodes that are done
   (`Digests.NewVersionReopens`).
9. **The code is the machine**: the imperative handlers and wrappers equal their specifications, and one call of the
   generated wrapper is a run of the protocol (`Controllers.SyncGenerateIsPath`).

## Assumptions, stated where they are used

- Hostnames are unique (`NodesOk`), and post-complete labels leave the hostname label alone.
- For the out-of-turn check the hostname label equals the node name (`NamedByHost`), because `Applying` holds
  hostnames while the job handler looks node names up in it.
- Short node names are distinct, so a job is identified by node and hash (`JobKey`), and its labels, where present, name the
  same node and hash (`OwnLabels`).
- Hash ranks of distinct nodes differ; handlers read current node labels.
- Where a result says that different contents give different hashes, the hash functions are injective (`Injective`), and
  secret hashes have one length (`EvenHashes`).
- For safety, slots, spacing and progress: a handler call for a job of another hash that gets as far as labelling
  finds no finished node and changes nobody's eligibility (`OldJobsSettled`). Nothing is assumed about which such jobs
  exist, and label provenance does not need it.
- For safety: a generated job that would run is applied before its node is finished (`Timely`).
- For no lost slot and progress: versions are not handled in reverse, and an unfinished job is judged on a
  version that already lists its node (`Orderly`).

## Where the code does not do what one might expect

- *A job of an older hash reopens a finished node.* The job handler compares versions only, so a completed job of the
  same version and an older hash (a rotated secret, a changed service account) labels its node with the old hash
  on every event. `Reopening.ReopensIff` gives the exact condition, `Reopening.OldJobReopensNode` the run.
- *Selecting and applying are not one transaction.* In every rollout with a listed node to be done,
  `Overtaking.LateApplyEscapesBatch` gives a run with one late apply after which a job runs outside the batch.
- *The out-of-turn check may use an older plan.* `Slots.StaleJudgementLosesSlot`: the slot survives if and only if the
  version the handler read already lists the node; `Staleness.StaleReadLosesSlot` gives the run that loses it.
- *A version can be recorded while the plan is not ready* (`Staleness.UnreadyPlanLosesSlot`): nothing was applied for it, so
  a listed node can be left without a job.
- *A batch above the limit can still admit a node* (`Completion.OverLimitStillAdmits`); the exact rule is
  `Completion.AdmissionIff`: only the kept nodes count.
- *The channel throttle opens once and for all* (`Quiescence.ThrottleNeverRearms`): a successful poll never moves the
  time stamp the interval is measured from, although the comment in the code speaks of the next interval.
- *A limit of zero completes the plan* (`Completion.ZeroLimitCompletesEarly`).
- *The binary search needs a sorted list* (`Text.SearchAgreesIffAscending`, an equivalence). When hostnames and node names
  sort differently `Applying` is not sorted, and `Membership.UnsortedBatchDropsListedNode` deletes the job of a listed node.
- *The parts of the digest run together* (`Digests.MovedTextGoesUnnoticed`): text moved from the end of the version to the start of
  the service account leaves the hash as it was; `Digests.HashTellsRunTogether` is the exact condition.
- *A plan that fails validation need not be recorded so*: with a hashed secret missing the call fails instead, unless
  the plan had failed to resolve (`Verdicts.InvalidPlanRecorded`, an equivalence).
- *The lifetime outlives the delay only while it fits int32* (`Jobs.TtlOutlivesDelay`, an equivalence).

## Model

| member | source | states |
|---|---|---|
| Safety.ConcurrencySafety | pkg/upgrade/handle_upgrade.go:129-189 | in every state of every rollout of one spec and hash, from a start with any jobs of other hashes, every unfinished unpaused job of the hash is on a host of the persisted Applying, hosts are listed once, and Applying and the number of busy nodes are at most the largest limit so far |
| Safety.StepSafe | pkg/upgrade/handle_upgrade.go:129-189 | each single step (sync, select, apply one, record, write, conflict, job read, job act, finish, restart, tick, concurrency edit, new node) keeps the safety invariant |
| Safety.RunningWithinBatch | pkg/upgrade/job/job.go:263-272 | the nodes with running jobs number at most the length of Applying |
| Safety.GenerateGuarded | pkg/upgrade/handle_upgrade.go:140-189 | a pass from any stale version unpauses only hosts that the current version still lists, and its pending status drops no eligible listed host |
| Safety.WriteGuarded | pkg/generated/controllers/upgrade.cattle.io/v1/plan.go:113-127 | a successful status write never removes a host under a running job |
| Safety.ActGuarded | pkg/upgrade/handle_batch.go:30-151 | a job handler call, on any stale copy of plan and job, keeps the safety invariant |
| Overtaking.TimelyIsExact | pkg/generated/controllers/upgrade.cattle.io/v1/plan.go:175-181 | from any safe state in which a pass can be made, applying one generated job leaves every continuation with all running jobs listed if and only if its node is still eligible or the job will not run |
| Safety.RunningJobsStartedInWindow | pkg/upgrade/handle_upgrade.go:154-177 | every running job lies in an unbroken stretch of non-empty Applying that was opened inside the window |
| Overtaking.LateApplyEscapesBatch | pkg/upgrade/handle_upgrade.go:136-152 | every start with a listed node to be done, any fleet, delay and lifetime, has a run with one late apply that ends with a running job on a host that is not listed |
| Slots.NoSlotLost | pkg/generated/controllers/upgrade.cattle.io/v1/plan.go:162-208 | once the current version of a ready plan is recorded as applied, every listed eligible node has a job that runs, has finished, or failed before |
| Staleness.UnreadyPlanLosesSlot | pkg/upgrade/handle_upgrade.go:121-127 | while the plan is not ready the record does not mean that: a run records its version and leaves a listed eligible node without a job |
| Slots.StepTended | pkg/upgrade/handle_batch.go:145-149 | each orderly step keeps the no-lost-slot invariant |
| Slots.ActSpares | pkg/upgrade/handle_batch.go:85-149 | a handler call deletes the job of a listed node only if it failed or the same call finished the node |
| Membership.TestsAgree | pkg/upgrade/handle_batch.go:145-149 | over any run and any edits with nodes named by their hosts, Applying is strictly sorted, the binary search finds exactly the listed names, and a job in progress is deleted exactly when a job generated for its node would be paused |
| Membership.UnsortedBatchDropsListedNode | pkg/upgrade/handle_upgrade.go:151-151 | any plan that selects two nodes whose names and hostnames cross writes an unsorted Applying, and the handler then deletes the unpaused job of a listed node |
| Slots.StaleJudgementLosesSlot | pkg/upgrade/handle_batch.go:145-149 | judging an unfinished job by an older version keeps the slot if and only if that version lists the node |
| Staleness.StaleReadLosesSlot | pkg/upgrade/handle_batch.go:145-149 | every rollout about to list its first nodes has an orderly run to a call on a job read too early, which loses the slot |
| Text.LessMeans | pkg/upgrade/plan/plan.go:198-210 | the order of strings is decided by their first difference, a proper prefix coming first |
| Text.SearchDecidesMembership | pkg/upgrade/handle_batch.go:146-147 | on a strictly sorted list the binary search finds exactly the members |
| Text.SearchStrings | pkg/upgrade/handle_batch.go:146-147 | the search loop computes the specified index on any list |
| Text.SearchAgreesIffAscending | pkg/upgrade/handle_batch.go:146-147 | on a list without repetitions the binary search finds exactly the members if and only if the list is sorted |
| Provenance.LabelProvenance | pkg/upgrade/handle_batch.go:104-142 | in any run with arbitrary edits, a step other than a user edit changes a node's labels only in a handler call for a job named by that node, to carry the hash of that job, which completed at least the delay of the plan earlier |
| Provenance.SlotFreedAfterDelay | pkg/upgrade/plan/plan.go:164-207 | when a node that was to be done at some moment, nodes added later included, leaves Applying, it carries the hash, its own job completed, and the delay has passed |
| Reopening.ReopensIff | pkg/upgrade/handle_batch.go:104-143 | a call takes the latest hash off a finished node if and only if it labels for a job of another hash, and makes the node eligible again if and only if, besides, that hash is not disabled and the written labels match |
| Reopening.OldJobReopensNode | pkg/upgrade/handle_batch.go:62-143 | from every start with a finished node that keeps its completed job of an older hash and the same version, three steps make the node eligible again |
| Progress.SomeMoveHelps | pkg/upgrade/handle_upgrade.go:140-187 | until the goal, some pass, success or job handling strictly decreases the remaining work |
| Progress.MovesNeverRegress | pkg/upgrade/handle_batch.go:104-144 | no pass, success or job handling increases the remaining work |
| Progress.RoundShrinksWork | pkg/upgrade/handle_upgrade.go:140-187 | any sequence of moves with a pass and, if a job runs or waits at its start, a success or a handling, strictly decreases the remaining work |
| Progress.RoundsEndAtGoal | pkg/upgrade/handle_upgrade.go:178-187 | any schedule of as many rounds as there was work ends with every matching node labelled and Complete true |
| Progress.GoalStays | pkg/upgrade/handle_upgrade.go:178-187 | no move leaves the goal |
| Progress.RoundExists | pkg/upgrade/handle_batch.go:104-144 | a round can be had from every healthy state |
| Progress.RolloutCompletes | pkg/generated/controllers/upgrade.cattle.io/v1/plan.go:162-197 | from any healthy state some run of real steps reaches the goal |
| Progress.GoalLabelsEveryMatch | pkg/upgrade/plan/plan.go:164-168 | at the goal every matching node carries the hash or is disabled |
| Batch.StepKeeps | pkg/upgrade/handle_upgrade.go:121-189 | under arbitrary edits every step keeps hosts unique in Applying, Complete true only when Applying is empty, and the cap |
| Batch.BatchBound | pkg/upgrade/plan/plan.go:169-207 | over any run with arbitrary edits Applying never exceeds the largest concurrency so far |
| Batch.SelectionBounded | pkg/upgrade/plan/plan.go:188-207 | a selection is at most the larger of the current batch and the limit |
| Batch.StatusHandlerKeeps | pkg/upgrade/handle_upgrade.go:31-110 | the status handler never changes Applying and never turns Complete true |
| Batch.GeneratedOk | pkg/upgrade/handle_upgrade.go:115-189 | a generating pass keeps the status invariant and the bound, and changes only Applying and the conditions |
| Batch.OutcomeStatus | pkg/upgrade/handle_batch.go:85-101 | the job handler writes a status only for a failed job, leaving Applying and making Complete false |
| Completion.CompleteOnlyWhenNothingApplies | pkg/upgrade/handle_upgrade.go:178-187 | in every state of every run Complete is true only while Applying is empty |
| Completion.CompleteMeansNobodyEligible | pkg/upgrade/handle_upgrade.go:178-187 | with a positive limit a pass turns Complete true if and only if no node is eligible |
| Completion.UnfinishedNodePinsPlan | pkg/upgrade/plan/plan.go:169-189 | a node that keeps matching without the hash from the moment it is listed, or from any later one at which no status that drops it waits to be written, stays listed and Complete never turns true, whatever is edited |
| Completion.BatchOpenedInWindow | pkg/upgrade/handle_upgrade.go:154-177 | a non-empty Applying lies in an unbroken stretch opened by a status computed inside the window |
| Completion.AdmissionIff | pkg/upgrade/plan/plan.go:189-207 | a node is admitted if and only if the kept nodes leave room and another node is eligible |
| Completion.OverLimitStillAdmits | pkg/upgrade/plan/plan.go:189-207 | the generating handler lists a new node for a ready plan whose Applying exceeds its limit |
| Completion.EmptySelectionIff | pkg/upgrade/plan/plan.go:169-207 | the selection is empty if and only if nothing is kept and there is no room or nobody eligible |
| Completion.ZeroLimitCompletesEarly | pkg/upgrade/handle_upgrade.go:178-187 | without a positive limit a plan with nothing listed completes whoever is eligible |
| Allocator.SelectConcurrentNodes | pkg/upgrade/plan/plan.go:155-212 | fails exactly on a bad selector; otherwise returns the declarative selection, for any listing order, of nodes that meet every query of the selector and have a hostname label |
| Labels.SelectsMeets | pkg/upgrade/plan/plan.go:143-152 | selecting means meeting each query: key present, key absent, value among, value absent or not among; a nil selector selects nothing |
| Labels.QueriesAreOpposites | pkg/upgrade/plan/plan.go:143-152 | Exists and DoesNotExist, In and NotIn are opposites, so objects without the key pass the negative ones |
| Allocator.RanksTellApart | pkg/upgrade/plan/plan.go:198-202 | with an injective hash the rank of a node changes with the node, the plan and the hash, and with nothing else |
| Allocator.PlanLabelsDiffer | pkg/upgrade/plan/plan.go:164-164 | the node labels of two plans coincide only if the plans do |
| Allocator.SelectionUnique | pkg/upgrade/plan/plan.go:194-211 | at most one list satisfies the selection's specification, so listing order cannot matter |
| Allocator.SelectionExists | pkg/upgrade/plan/plan.go:155-212 | a selection always exists |
| Allocator.ApplyingQueriesPartition | pkg/upgrade/plan/plan.go:169-185 | the In and NotIn queries split the eligible nodes by membership in Applying |
| Allocator.EligibleMeans | pkg/upgrade/plan/plan.go:143-168 | eligibility is: selector, hostname label, and a plan label that is neither disabled nor the hash |
| Sequences.SortBySorts | pkg/upgrade/plan/plan.go:198-210 | sorting by distinct keys is a strictly sorted permutation |
| Sequences.SortedUnique | pkg/upgrade/plan/plan.go:198-210 | a strictly sorted list is determined by its elements |
| Jobs.TtlOutlivesDelay | pkg/upgrade/job/job.go:142-153 | the lifetime is an int32, and exceeds the delay by more than 59 seconds if and only if delay plus a minute fits int32 seconds |
| Jobs.NoUnlabelledDelete | pkg/upgrade/handle_batch.go:111-143 | a completed job is only deleted by a call that writes its hash to the node |
| Jobs.NewJobIdentity | pkg/upgrade/job/job.go:167-180 | plan labels cannot override the identifying labels of a job |
| Jobs.BuildJob | pkg/upgrade/job/job.go:136-272 | the loops and in-place changes build the specified job, unpaused exactly for listed hosts |
| Jobs.PlanLabelIsJobHash | pkg/upgrade/handle_batch.go:125-132 | post-complete labels cannot decide the plan's own label, and labels not named stay |
| JobControllers.JobController.OnChange | pkg/upgrade/handle_batch.go:30-151 | one job event has exactly the specified effect on plans, nodes, jobs and queues |
| Events.SuccessRecorded | pkg/upgrade/handle_batch.go:104-143 | a completed job leaves its node schedulable if the plan cordons or drains, on both sides of the delay; labels, with their variables filled in, wait for the delay, before which the job is looked at again when it is over; then the lifetime decides |
| Events.BareSuccess | pkg/upgrade/handle_batch.go:104-143 | a completed job without a hash only waits for its lifetime; one without a completion time only fails |
| Events.OnlyEditsCordon | pkg/upgrade/handle_batch.go:134-138 | over any run with any edits, only a user edit cordons a node |
| Events.SuccessUncordons | pkg/upgrade/handle_batch.go:134-141 | over any run, the handled success of a cordoning plan leaves its node schedulable |
| Events.FailureRecorded | pkg/upgrade/handle_batch.go:85-102 | a failed job turns the plan's Complete false, naming node and reason, and the lifetime decides about it; without the write or the time of failure the call only fails |
| Events.FailureReachesPlan | pkg/upgrade/handle_batch.go:97-101 | a failure handled with the latest version is on the plan afterwards, whose batch is as before |
| Events.UnfinishedJudged | pkg/upgrade/handle_batch.go:145-150 | with a sorted batch an unfinished job is deleted exactly when its node is not listed, and nothing else happens |
| Events.ForeignAndStaleJobs | pkg/upgrade/handle_batch.go:34-84 | other controllers' jobs are left alone; malformed, orphaned and outdated ones are only deleted; jobs of the plan's version wake the plan |
| Events.LifetimeMeans | pkg/upgrade/job/job.go:137-153 | the lifetime is the default without a delay, and with one that fits the longer of the default and the delay plus a minute |
| Events.ClearedLifetimeStays | pkg/upgrade/handle_batch.go:156-171 | a job whose lifetime field was cleared keeps its lifetime by the annotation, which plan annotations cannot override |
| Events.NewJobLabels | pkg/upgrade/job/job.go:167-180 | jobs inherit exactly the plan labels outside the controller's domain |
| Events.NewJobAnnotations | pkg/upgrade/job/job.go:155-165 | jobs inherit exactly the plan annotations outside two domains |
| JobControllers.JobController.EnqueueOrDeleteJob | pkg/upgrade/handle_batch.go:156-177 | requeue for the rest of the lifetime, or delete when it is over or malformed |
| JobControllers.LabelNode | pkg/upgrade/handle_batch.go:125-132 | the label loop, in any order, yields the specified labels |
| Conditions.WriteThrough | pkg/upgrade/handle_upgrade.go:83-88 | exactly the writes before the first append reach a by-value status; obj sees all of them |
| Conditions.ListRefinesMap | pkg/apis/condition/condition.go:174-225 | any run of writes keeps one entry per type and acts on the list as on a map |
| Conditions.UpdateRefinesMap | pkg/apis/condition/condition.go:179-207 | one write changes its own type's entry only |
| Conditions.MatchesErrorIffNothingToWrite | pkg/apis/condition/condition.go:19-46 | MatchesError holds after SetError, and holds if and only if SetError would write nothing at any time |
| Objects.PlanObject.FindOrCreate | pkg/apis/condition/condition.go:192-207 | the entry exists afterwards at the returned index, and creating it is the specified write on both sides of the shared array |
| Objects.PlanObject.Write | pkg/apis/condition/condition.go:174-207 | find or create, then write in place: both sides of the shared array are as specified |
| Objects.PlanObject.SetError | pkg/apis/condition/condition.go:19-32 | status, message and reason in order, on both sides of the shared array |
| Objects.PlanObject.Append | pkg/apis/condition/condition.go:202-206 | an append never disturbs the array a by-value status shares |
| Objects.PlanObject.Lookup | pkg/apis/condition/condition.go:209-225 | the loop returns the first entry of the type |
| Controllers.RunStatusHandler | pkg/upgrade/handle_upgrade.go:31-110 | the mutating handler returns the specified status or error in every branch, early returns included |
| Verdicts.InvalidPlanRecorded | pkg/upgrade/handle_upgrade.go:44-50 | for a plan with a fault, a negative delay or a missing hashed secret the call fails exactly when a secret is missing and the plan had not failed to resolve; otherwise Validated is false with the first complaint, and version and batch stay |
| Verdicts.InvalidPlanStartsNothing | pkg/upgrade/handle_upgrade.go:123-126 | a pass on the status of an invalid plan creates no job and keeps the batch |
| Verdicts.ValidPlanRecorded | pkg/upgrade/handle_upgrade.go:51-54 | every status of a valid plan shows it valid, except that a throttled call cannot record entries that were missing |
| Verdicts.StaticVersionRecorded | pkg/upgrade/handle_upgrade.go:66-80 | a static version is recorded with every plus a minus, resolved, and announced on Complete if it is new |
| Verdicts.ChannelVersionRecorded | pkg/upgrade/handle_upgrade.go:91-109 | an asked channel decides: its answer is recorded and announced, its failure is the call's |
| Verdicts.ThrottledKeepsVersion | pkg/upgrade/handle_upgrade.go:81-90 | a recently resolved channel is not asked, and version, hash and batch stay |
| Verdicts.UnresolvableRecorded | pkg/upgrade/handle_upgrade.go:57-65 | with neither version nor channel LatestResolved turns false, and version and hash stay |
| Verdicts.VersionChangeResetsComplete | pkg/upgrade/handle_upgrade.go:68-76 | a status with another version has Complete false for that reason |
| Verdicts.FreshAnswerThrottles | pkg/upgrade/handle_upgrade.go:81-90 | after a first answer, calls do without the channel exactly until the interval has passed |
| Conditions.StampMoves | pkg/apis/condition/condition.go:179-185 | a write sets the time stamp exactly when it changes status or message |
| Conditions.SetErrorShows | pkg/apis/condition/condition.go:19-32 | SetError leaves outcome, message and reason, with "Error" for an empty reason |
| Controllers.RunGeneratingHandler | pkg/upgrade/handle_upgrade.go:115-189 | the mutating handler returns the specified jobs and status, for the selection it made |
| Readiness.UnreadyStartsNothing | pkg/upgrade/handle_upgrade.go:121-126 | if Validated or LatestResolved is missing or not true, a pass returns no job, keeps the batch and does not turn Complete true |
| Readiness.WorkComesFromReadyVersions | pkg/upgrade/handle_upgrade.go:121-152 | over any run with any edits, a job is created or unpaused only for a version on which both were true |
| Readiness.HostsComeFromReadyVersions | pkg/upgrade/handle_upgrade.go:121-177 | over any run with any edits, a host is listed only by a status computed from a version on which both were true |
| Readiness.PassFailsIff | pkg/upgrade/handle_upgrade.go:128-149 | a pass of a ready plan fails exactly when the selection does or a selected Windows node has no image |
| Readiness.OpenPassLists | pkg/upgrade/handle_upgrade.go:136-177 | inside the window, or with nodes in progress, there is one job per selected node and the batch is their hosts; Complete is reset only if that is news |
| Readiness.ClosedPassWaits | pkg/upgrade/handle_upgrade.go:154-167 | with nothing in progress and the clock outside the window nothing starts, and Complete says why |
| Readiness.EmptyPassCompletes | pkg/upgrade/handle_upgrade.go:178-187 | with nothing selected the batch is emptied and Complete shows true |
| Controllers.RunPlanned | pkg/upgrade/handle_upgrade.go:154-189 | window, batch update and completion as specified, including what the by-value status keeps |
| Controllers.HashSecrets | pkg/upgrade/plan/plan.go:60-74 | the running hash over the secrets is the specified digest, or an error exactly when one is missing |
| Controllers.RunValidate | pkg/upgrade/plan/plan.go:223-262 | a plan is valid if and only if its drain and window settings are in order, its delay is not negative and every hashed secret exists; otherwise the first complaint in that order |
| Controllers.PlanController.SyncStatus | pkg/generated/controllers/upgrade.cattle.io/v1/plan.go:93-130 | the handler's status is written unless unchanged or outdated; an error leaves the versions alone |
| Controllers.WritesIffChangedAndCurrent | pkg/generated/controllers/upgrade.cattle.io/v1/plan.go:107-127 | nothing is written exactly when the status is unchanged or the version outdated; otherwise one version with that status is added |
| Controllers.PlanController.SyncGenerate | pkg/generated/controllers/upgrade.cattle.io/v1/plan.go:93-184 | apply once per version, record, write; any error leaves versions and record unchanged |
| Controllers.PlanController.ApplyOncePerVersion | pkg/generated/controllers/upgrade.cattle.io/v1/plan.go:171-183 | a recorded version is not applied again, only a full apply is recorded, and no other plan's record changes |
| Controllers.SyncGenerateIsPath | pkg/generated/controllers/upgrade.cattle.io/v1/plan.go:93-184 | what one call does to the versions, the jobs and the record is a run of the machine, however far the apply gets and whatever fails |
| Controllers.StatusSyncIsPath | pkg/generated/controllers/upgrade.cattle.io/v1/plan.go:93-130 | a status sync is a run of the machine |
| Applies.AppliedAtMostOnce | pkg/generated/controllers/upgrade.cattle.io/v1/plan.go:186-208 | over any run of the machine without restart and with versions handled in order, each version is applied successfully at most once |
| Applies.PlansDoNotInterfere | pkg/generated/controllers/upgrade.cattle.io/v1/plan.go:142-208 | over any calls of Handle and Remove, what is recorded and applied for a plan depends on its own calls alone |
| Quiescence.SecondPassWritesNothing | pkg/upgrade/handle_upgrade.go:37-79 | for a valid static-version plan the second status-then-generate pass writes nothing, from any status and at any time on the same side of the window |
| Quiescence.StatusHandlerSettles | pkg/upgrade/handle_upgrade.go:37-79 | one status call settles a valid static-version plan |
| Quiescence.SelectionIdempotent | pkg/upgrade/plan/plan.go:169-211 | selecting again with the selection as Applying selects the same nodes |
| Quiescence.GeneratingSettles | pkg/upgrade/handle_upgrade.go:154-189 | a second generating pass changes nothing |
| Quiescence.ThrottleNeverRearms | pkg/upgrade/handle_upgrade.go:81-109 | over any polls LatestResolved's time stamp stays where it was, so the throttle does not close again |
| Triggers.OnSecret | pkg/upgrade/handle_core.go:42-62 | wakes exactly the plans that hash the secret |
| Triggers.OnSecretChange | pkg/upgrade/handle_core.go:42-62 | wakes every listed plan whose digest the change of a secret changes |
| Triggers.DigestIgnoresUnhashed | pkg/upgrade/plan/plan.go:60-75 | the hash does not depend on secrets whose updates are ignored |
| Digests.HashTellsVersions | pkg/upgrade/plan/plan.go:54-54 | other things equal, hashes agree if and only if versions do |
| Digests.HashTellsAccounts | pkg/upgrade/plan/plan.go:55-55 | the same for the service account |
| Digests.HashTellsFields | pkg/upgrade/plan/plan.go:81-95 | the same for each digested field |
| Digests.HashTellsSecrets | pkg/upgrade/plan/plan.go:60-74 | hashes agree if and only if the secret stores agree on every secret that counts |
| Digests.SecretDigestsSplit | pkg/upgrade/plan/plan.go:60-74 | secrets are hashed in the order of the plan, and all must exist |
| Digests.HashTellsRunTogether | pkg/upgrade/plan/plan.go:51-75 | with the same secrets, hashes agree if and only if version, account and fields do once run together |
| Digests.MovedTextGoesUnnoticed | pkg/upgrade/plan/plan.go:54-58 | text moved from the version to the account, or from there to the fields, leaves the hash as it was |
| Digests.NewVersionReopens | pkg/upgrade/handle_upgrade.go:66-80 | after a new static version the hash changes, and a matching node that was done is to be done again, if and only if the version differs up to plus and minus |
| Triggers.OnNode | pkg/upgrade/handle_core.go:16-33 | wakes exactly the plans each of whose queries the node meets, up to the first selector that does not convert |
| Handlers.MungeVersion | pkg/upgrade/plan/plan.go:97-99 | every plus becomes a minus and nothing else changes |

## Left out

- Channel polling over HTTP: an environment choice of version or error.
- Parsing and containment of the time window, and the drain checks of validation: an uninterpreted predicate of the clock and an optional complaint.
- Pod spec building in `job.New` (containers, volumes, drain arguments, affinity, deadlines, the exclusive label): field filling with nothing to prove.
- Texts of the controller's own error messages: constructors of `Message`; texts from elsewhere are carried as they are.
- SHA sums, secret hashing, `$(VAR)` expansion, integer formatting: function parameters; rounding of `Duration.Seconds` in float64 is modelled as truncation.
- Digest annotation paths that point into the plan's status: the model takes the annotated fields as part of the spec.
- Label key validation in `labels.NewRequirement`: only a node selector that does not convert is an error.
- Mutation of the informer's cached node before a failing node update: the model writes the node only when the update succeeds.
- One clock reading per plan handler call for time stamps: the job handler's two readings are separate.
- Deletion of jobs by the cluster's own TTL controller or by users: jobs disappear only through the job handler.
- Events, logging, leader election, work-queue internals, CRD registration and generated clients: plumbing.
- Objects.PlanObject.Append: the growth factor of Go's append is not modelled, only that a full slice moves to a larger array.
- Batch.OutcomeStatus: the failure message names the node only, not the job, its reason and its message.
