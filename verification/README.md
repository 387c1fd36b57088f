# Task Hub: a verified model of its protocols

This project models the parts of Task Hub whose correctness depends on the order of events, and proves what they
promise. `dafny verify dfyconfig.toml` checks everything.

## What is modelled

**One database.** `Domain.dfy` holds the rows (users, workspaces, members, projects, tasks, labels, task-label pairs) and
the validated listing query. Every other module speaks about these rows. `Clock.dfy` and `Text.dfy` hold instants,
calendar dates and the printing of numbers.

**The task listing.** `TaskListing.dfy` gives the filter twice, as a predicate and as the SQL condition list under
three-valued logic, the strict order, and the page arithmetic; `ListingRanks.dfy` reads the order and the pages off the
columns. `TaskListKeys.dfy` prints the Redis keys character by
character; SHA-256 is a parameter.

**The versioned cache.** Each await of a listing and of a mutating request is one step of the state machine in
`CacheProtocol.dfy`; any number of both interleave. The count and the page statement may see different commits. GET, SET,
UNLINK and INCR may fail, a failed call may still have taken effect, INCR may be applied twice, pages may vanish or be
spoiled at any time. `CacheCoherence.dfy` states the invariant, `CacheSteps.dfy` proves it step by step, `CacheRuns.dfy`
draws the conclusions. `Redis.dfy` is the store. `UninterruptedRuns.dfy` ties the state machine to the classes below, and
`TornPages.dfy` says which committed rows each statement reads.

**The same cache inside the application.** `TaskListCache.dfy`, `PostCommit.dfy`, `Services.dfy` and `Application.dfy` are
classes shaped like the originals: a Redis server that fails at will, the cache, the callback queue, the three services,
and `get_db` around them. `ServiceRules.dfy` is the specification of each service operation, `ServiceEffects.dfy` what
each of them leaves in every column and whom it refuses, read off the rows, `ServiceProperties.dfy` what
those rules imply, `RequestRuns.dfy` the uncached reference run. `Application.Serve` proves the cached application equal
to that reference.

**The label triggers.** `LabelTriggers.dfy` is a lock-level state machine of the three plpgsql triggers under concurrent
transactions. What is assumed of PostgreSQL at READ COMMITTED is listed at the top of that file. `LabelTriggerSafety.dfy`
and `LabelTriggerCallers.dfy` prove when committed pairs stay within one project and give runs in which they do not;
`LabelTriggerGuarantee.dfy` joins both into an if-and-only-if, and `LabelTriggerAcceptance.dfy` proves that everything
valid is let through and why anything is refused.

**Refresh sessions.** `RefreshSessions.dfy` interleaves registrations, logins, refreshes and logouts at the row lock, with
commits and rollbacks; `RefreshSessionSafety.dfy` and `RefreshSessionRuns.dfy` prove its properties; `AuthService.dfy` is
the repository and the service as classes; `RefreshOutcomes.dfy` says what each request leaves in the rows, and for how long.

**Shutdown.** `Background.dfy` composes the dispatcher with the mail notifier's shield-and-wait; `BackgroundOutcomes.dfy`
says what becomes of each task.

**The Redis connection.** `RedisClient.dfy` interleaves calls of `init_redis`.

## Two findings

- The pair trigger lets a row through when it reads null for a parent, and the foreign key is checked later. A
  transaction that pairs a task which another transaction is just creating in another project therefore commits a
  cross-project pair (`LabelTriggerSafety.MissingParentBreaksIt`, for every database, label and new task, and
  `LabelTriggerSafety.MissingLabelBreaksIt` for labels). The triggers are enough exactly for pairs whose two rows are
  committed before: then every interleaving is safe, otherwise some interleaving is not
  (`LabelTriggerGuarantee.GuaranteedExactly`). Callers that read both rows before writing the pair, as the service does,
  are on the safe side (`LabelTriggerCallers.SameProjectForCarefulCallers`).
- Printing a key for a due bound whose UTC reading falls outside years 1 to 9999 raises OverflowError, which the cache
  does not catch, so the listing fails. A bound does so exactly when `wall < offset` or `wall - offset` reaches the end of
  year 9999, which takes a wall clock within a day of either end (`TaskListKeys.PrintableExactly`); the validators accept
  such bounds (`TaskListKeys.EdgeQueryOverflows`). A listing's key overflows exactly when its query has such a bound and its
  first GET is answered: in every interleaving (`CacheRuns.OverflowsExactlyAtVersion`), from every reachable state
  (`UninterruptedRuns.ListingOverflowsExactly`), already on the first listing (`UninterruptedRuns.OverflowIsReachable`),
  and in the service itself (`Services.TaskService.ListTasks`).

## Model

| member | source | states |
|---|---|---|
| CacheRuns.Coherence | app/services/task_service.py:307-345 | in every state of every interleaving, either the INCR of some committed mutation of the project is outstanding or lost, or every page stored or about to be stored under the current version equals a fresh count-and-page query on the committed tasks, for any finite set of queries that includes those listed and has no SHA-256 collision |
| TornPages.ItemsReadNewestCommit | app/repositories/task_repository.py:98-108 | whenever a page statement runs, its items are exactly the tasks of the last commit whose rank falls on the page, newest first, beside the total counted earlier |
| TornPages.CountReadsNewestCommit | app/repositories/task_repository.py:93-96 | whenever a count statement runs, it counts the selected tasks of the last commit |
| TornPages.TornPageIsReached | app/repositories/task_repository.py:93-108 | for all rows, every project, printable query and new matching task there is a run whose response leaves the task out of its total and, if its rank is on the page, has it among its items; that response is the answer of no committed state |
| TornPages.OnlyCommitsCommit | app/db/session.py:82-91 | every step but a commit leaves the committed rows alone, and a commit adds one state to them |
| TornPages.CommitWritesItsTask | app/repositories/base_repository.py:62-118 | a commit writes its own task into the rows of the last commit, column by column, and no other |
| TornPages.CommitsUnlessRowIsGone | app/repositories/base_repository.py:83-106 | an open request can commit exactly unless it updates a row that has gone meanwhile |
| TornPages.RolledBackForGood | app/db/session.py:82-91 | in every continuation, a request that rolled back never commits and never runs a callback |
| CacheRuns.VersionFreshness | app/cache/task_list_cache.py:133-172 | an answer given after a version lookup that returned v has its count and its items each drawn from a committed state that includes every mutation whose INCR was among the first v |
| CacheRuns.StalenessBound | app/cache/task_list_cache.py:183-212 | if INCRs may be lost and pages are stored within a delay of their count, a hit at time t reflects every mutation committed by t - ttl - delay |
| CacheRuns.LostIncrServesStalePage | app/cache/task_list_cache.py:204-212 | in every reachable state with the fresh answer stored and alive, if an open request commits a change of that answer and loses its INCR, a listing of the query that follows at once is served the old page, which differs from a fresh query |
| UninterruptedRuns.StaleRunServesOldPage | app/cache/task_list_cache.py:204-212 | such states are reached: for all rows, every project, printable query and new matching task, the run list, insert, lose the INCR, list again from the initial state ends with the answer from before the insert |
| CacheRuns.OverflowsExactlyAtVersion | app/cache/task_list_cache.py:133-150 | in every interleaving the key of a listing overflows exactly when its version lookup is answered and a due bound of its query leaves the calendar |
| UninterruptedRuns.ListingOverflowsExactly | app/cache/task_list_cache.py:68-72 | from every reachable state, for every accepted query and whatever Redis does, the key of an uninterrupted listing overflows exactly when its first GET is answered and a due bound leaves the calendar |
| UninterruptedRuns.OverflowIsReachable | app/cache/task_list_cache.py:68-72 | on any rows, the first listing of one concrete accepted query ends in that overflow |
| UninterruptedRuns.UninterruptedListing | app/services/task_service.py:296-346 | from every reachable state, for every behaviour of Redis, an uninterrupted listing of the protocol ends with the answer and the store that the service computes, and changes nothing else |
| UninterruptedRuns.UninterruptedMutation | app/services/task_service.py:159-294 | an operation with callbacks, run through the protocol without interruption, commits the rows of its rule and leaves Redis as its callbacks do in the service |
| CacheRuns.ListingsNeverBlock | app/services/task_service.py:296-346 | in every reachable state the step each listing waits for is possible, whether or not Redis answers, and only an unprintable query ends in an overflow |
| CacheSteps.RunKeeps | app/cache/task_list_cache.py:124-212 | the coherence invariant holds after every run: versions count the INCRs applied, every stored page has a recorded origin covering its version, every commit's INCR is accounted for |
| CacheSteps.StepKeeps | app/db/session.py:82-91 | each single step, of listings, transactions, callbacks and Redis faults, keeps that invariant |
| TaskListKeys.PrintableExactly | app/cache/task_list_cache.py:68-72 | a key can be printed exactly when no due bound leaves the calendar, told from its wall clock and offset; only bounds within a day of the calendar's edges can |
| TaskListKeys.EdgeQueryOverflows | app/schemas/task.py:120-141 | the filter validators accept a bound with which no key can be printed |
| Clock.RepresentableExactly | app/cache/task_list_cache.py:68-72 | the instants whose UTC date lies in years 1 to 9999 are exactly those of the calendar's 3652059 days |
| TaskListKeys.ResponseKeySound | app/cache/task_list_cache.py:107-122 | two listings share a response key exactly when project, version, page, page size and filter agree, due bounds compared as instants, if SHA-256 does not collide on the two |
| TaskListKeys.CanonicalFaithful | app/cache/task_list_cache.py:82-104 | the canonical JSON text of two printable queries is equal exactly when the queries are |
| TaskListKeys.SharedKeySharedAnswer | app/cache/task_list_cache.py:107-122 | listings that share a response key have the same answer on every database |
| TaskListKeys.ResponseKeyIsNoVersionKey | app/cache/task_list_cache.py:58-60 | no response key equals any project's version key, for any digest and version text, so INCR never hits a page |
| TaskListKeys.VersionKeysDistinct | app/cache/task_list_cache.py:58-60 | projects with the same version key are the same project |
| TaskListKeys.UuidTextInjective | app/cache/task_list_cache.py:84-89 | the printed form of a UUID determines it |
| Clock.IsoUtcInjective | app/cache/task_list_cache.py:68-72 | the ISO text in UTC determines the instant, with and without fractional seconds |
| TaskListing.PagesPartition | app/services/task_service.py:316-336 | pages 1 to total_pages of a fixed table, concatenated, are strictly ordered by (created_at, id) descending and hold exactly the matching tasks of the project, each once |
| TaskListing.AnswerIsItsPage | app/services/task_service.py:327-336 | an answer holds its own piece of that sequence: full before the last page, non-empty on it, empty after it |
| ListingRanks.AnswerIsNewestFirst | app/repositories/task_repository.py:98-103 | of two items of an answer the earlier one was created later, or at the same instant under a greater id |
| ListingRanks.PagesAreNewestFirst | app/repositories/task_repository.py:98-103 | the same for any two rows of the concatenated pages |
| ListingRanks.AnswerExactly | app/services/task_service.py:316-336 | the total counts the selected tasks, and a task is among the items exactly when the number of selected tasks newer than it lies from (page - 1) * size up to below page * size |
| ListingRanks.PagesNeeded | app/services/task_service.py:327-336 | `total_pages` is the least number of pages that hold all selected tasks |
| ListingRanks.LeftOutExactly | app/repositories/task_repository.py:77-91 | a task is left out exactly when a given part of the filter contradicts it; due bounds are inclusive, and no due date contradicts any bound |
| TaskListing.OrderUnique | app/repositories/task_repository.py:98-103 | any strictly ordered sequence listing the same rows is the listing order |
| TaskListing.TaskRepository.ListByProject | app/repositories/task_repository.py:69-108 | total and items are the matching rows of the tables that the two statements see, the items cut from the ordered result by offset and limit, newest first by their columns |
| TaskListing.TaskRepository.Conditions | app/repositories/task_repository.py:77-91 | the condition list, grown one by one, selects under SQL null rules exactly the project's tasks that match the filter |
| TaskListing.StatementsDependOn | app/repositories/task_repository.py:93-108 | both statements depend only on the project's own rows and on the query up to the spelling of its due bounds |
| Domain.Validate | app/schemas/task.py:120-141 | the filter validators accept exactly aware bounds, no assignee together with unassigned, and bounds in order, and return the filter unchanged |
| Domain.ValidationErrors | app/schemas/task.py:120-141 | a bound without an offset is reported first, then both ways to ask for assignees, then bounds in the wrong order |
| Application.Application.Serve | app/services/task_service.py:296-346 | over any sequence of complete requests, with evictions, spoiled payloads and failing GET, SET and UNLINK, rows and callbacks are those of the reference run, every answer is too when no INCR is lost, and a request issues a GET exactly when it is a listing of a project its user can see, and it overflows exactly when its own first GET was answered and its key cannot be printed |
| Application.Application.List | app/services/task_service.py:296-346 | one cached listing, with its session scope, returns the uncached reply on a sound cache and leaves rows alone and the cache sound |
| Application.Application.Mutate | app/db/session.py:82-91 | one mutating request commits its rule's rows and runs its callbacks, or changes nothing; Redis is left as its callbacks' INCRs leave it, and the cache is sound again afterwards when INCR is reliable |
| Application.Application.GetDb | app/db/session.py:78-91 | an exception or a failed commit rolls back, closes and runs no callback; otherwise commit, close, then every callback |
| Application.Application.CallService | app/services/task_service.py:159-294 | each operation, routed to its service, has exactly the effect of its rule on rows, queue and error |
| Application.CommittedSound | app/db/session.py:82-91 | the callbacks of a committed operation restore cache soundness for the changed rows when each INCR is applied at least once |
| TaskListCache.RedisTaskListCache.Get | app/cache/task_list_cache.py:124-172 | no lookup, or the current version together with the live page under its key; at most an unreadable page is removed; it fails exactly when the first GET is answered and the key cannot be printed; when Redis works, both calls are made and take effect |
| TaskListCache.FetchGot | app/cache/task_list_cache.py:124-172 | the value-level account of `get`, call by call: when it fails, and what lookup and store it leaves |
| TaskListCache.ListingKeeps | app/services/task_service.py:305-346 | whatever Redis does with the calls of a listing, on a sound cache its answer is the uncached one and the cache stays sound |
| TaskListCache.OverflowsExactly | app/cache/task_list_cache.py:132-150 | a listing has no answer exactly when its first GET is answered and its key cannot be printed |
| TaskListCache.RedisTaskListCache.Set | app/cache/task_list_cache.py:174-202 | the page is stored under the given version with the configured lifetime, always when Redis works, or nothing changes |
| TaskListCache.RedisTaskListCache.InvalidateProject | app/cache/task_list_cache.py:204-212 | the project's version is bumped some number of times, at least once when INCR is reliable and exactly once when Redis works |
| TaskListCache.RepeatIsHit | app/services/task_service.py:305-345 | when Redis works, a listing that misses is stored, and the same listing is answered from it for the page's whole lifetime, whatever becomes of the rows, until an invalidation |
| TaskListCache.GetKeeps | app/cache/task_list_cache.py:124-172 | a hit on a sound cache is the uncached answer, and looking keeps the cache sound |
| TaskListCache.StoredPageSound | app/cache/task_list_cache.py:174-195 | storing the uncached answer under the current version keeps the cache sound for every query that shares its key |
| TaskListCache.BumpedSound | app/cache/task_list_cache.py:204-206 | a raised version makes the cache sound again after any change to that project's rows |
| TaskListCache.FewerPagesSound | app/cache/task_list_cache.py:155-172 | losing or spoiling pages never makes the cache unsound |
| PostCommit.PostCommitActions.Add | app/db/post_commit.py:12-13 | the callback is appended to the queue |
| PostCommit.PostCommitActions.Run | app/db/post_commit.py:15-21 | the queue is emptied and every callback is called once, in order, whether or not earlier ones raised, with its effect on Redis; each accepted mail is one more task of the dispatcher |
| PostCommit.Effects.Call | app/services/task_service.py:124-133 | a dispatch raises exactly when the dispatcher is shutting down and otherwise submits one task for its mail; an invalidation never raises |
| Services.TaskService.CreateTask | app/services/task_service.py:159-212 | rows, queued callbacks and error are those of the creation rule; the result is the new row |
| Services.TaskService.UpdateTask | app/services/task_service.py:214-263 | rows, queued callbacks and error are those of the update rule; the result is the updated row |
| Services.TaskService.DeleteTask | app/services/task_service.py:265-294 | rows, queued callbacks and error are those of the deletion rule |
| Services.TaskService.ListTasks | app/services/task_service.py:296-346 | not found exactly without access; overflow exactly with access, an answered first GET and an unprintable key; answer and store are those of `CachedListing`, with every call made and effective when Redis works; on a sound cache the result is the uncached answer and the cache stays sound |
| Services.TaskService.ValidateAssignee | app/services/task_service.py:95-122 | nobody and the actor pass; others are refused in the order missing, inactive, not a member; success returns the user row |
| Services.TaskService.RegisterAssignmentNotification | app/services/task_service.py:135-157 | one mail is queued unless there is no assignee or the assignee is the actor |
| Services.AccessChecks.GetAccessible | app/repositories/workspace_repository.py:45-82 | the owner's role first, then the member's, none for strangers |
| Services.AccessChecks.GetProjectAccess | app/services/task_service.py:60-75 | project and role for whoever can see the project, the same not-found error for a missing project and for no access |
| Services.AccessChecks.RequireWritable | app/services/label_service.py:77-102 | refused in the order not visible, viewer, archived; otherwise the project row |
| Services.LabelService.CreateLabel | app/services/label_service.py:108-139 | rows and error are those of the rule: role, archive and name checks in order, then one new row |
| Services.LabelService.UpdateLabel | app/services/label_service.py:157-189 | rows and error are those of the rule; only a changed name is looked up |
| Services.LabelService.DeleteLabel | app/services/label_service.py:191-205 | rows and error are those of the rule: the label and all its pairs go |
| Services.LabelService.GetByProjectAndName | app/repositories/label_repository.py:47-58 | a label with that project and name if there is one, else none |
| Services.TaskLabelService.ValidateAssignment | app/services/task_label_service.py:86-110 | refused in the order task, role, archive, label, project mismatch; otherwise the task's project |
| Services.TaskLabelService.AssignLabel | app/services/task_label_service.py:112-124 | the pair is present afterwards, also when it was before, and one invalidation is queued |
| Services.TaskLabelService.RemoveLabel | app/services/task_label_service.py:126-138 | the pair is absent afterwards, also when it was before, and one invalidation is queued |
| Services.TaskLabelRepository.Add | app/repositories/task_label_repository.py:16-22 | set insertion: a conflict does nothing |
| Services.TaskLabelRepository.Remove | app/repositories/task_label_repository.py:24-30 | set removal |
| ServiceEffects.RoleIsMembership | app/repositories/workspace_repository.py:45-82 | owner exactly for the workspace's owner, editor or viewer exactly for whoever else has such a membership row |
| ServiceEffects.MayWriteExactly | app/services/task_service.py:165-182 | a project may be written exactly by its workspace's owner and by users with an editor's row, and seen besides exactly by viewers |
| ServiceEffects.PerformedExactly | app/services/task_service.py:159-294 | each of the eight operations is performed exactly when the rows admit it: its row is there, the actor owns or edits, the project is active, and assignee, name or label are acceptable |
| ServiceEffects.RefusedByRole | app/services/task_service.py:165-184 | every operation tells strangers that its row does not exist, denies viewers whatever else is wrong, and tells writers of an archived project so |
| ServiceEffects.RefusedForItsContent | app/services/task_label_service.py:96-110 | a writer's operation on an active project that the rows do not admit is refused with the error of its first fault |
| ServiceEffects.CreatedTask | app/services/task_service.py:193-204 | one new row with the draft's columns, status TODO, the actor as creator and both stamps now; nothing else changes |
| ServiceEffects.UpdatedTask | app/repositories/base_repository.py:83-106 | every given column has the given value, every other column and row is unchanged, and `updated_at` becomes now exactly when some column changed |
| ServiceEffects.DeletedTask | app/services/task_service.py:291-294 | the task is gone and exactly its pairs with it |
| ServiceEffects.CreatedLabel | app/services/label_service.py:127-134 | one new row with the given project, name and colour; nothing else changes |
| ServiceEffects.UpdatedLabel | app/services/label_service.py:180-184 | given name and colour are set, everything else is unchanged |
| ServiceEffects.DeletedLabel | app/services/label_service.py:203-205 | the label is gone and exactly its pairs with it |
| ServiceEffects.PairedOrNot | app/services/task_label_service.py:112-138 | afterwards the pair is there, or not, whether or not it was before; every other pair and row is unchanged |
| ServiceRules.Refusal | app/services/task_service.py:165-184 | no refusal exactly for an owner or editor of a project that is not archived |
| ServiceProperties.WellFormedKept | app/services/task_label_service.py:86-138 | every performed operation keeps all pairs inside one project and label names unique per project |
| ServiceProperties.OnlyWritersChangeAProject | app/services/task_service.py:169-184 | whenever anything in a project changes, the actor is its owner or an editor and the project is not archived |
| ServiceProperties.CascadeReachesStrayPairs | app/services/label_service.py:191-205 | without the same-project invariant the label-delete cascade would change an archived project |
| ServiceProperties.QueueShape | app/services/task_service.py:205-211 | label operations queue nothing; every other operation queues its project's invalidation and then at most one mail |
| ServiceProperties.RowChangesInvalidate | app/services/task_service.py:255-262 | if a project's task rows change, its invalidation is queued, first |
| ServiceProperties.MailExactlyForNewAssignees | app/services/task_service.py:135-157 | a mail is queued for a task exactly when its committed row has a new non-null assignee other than the actor, and it carries that row's data and the assignee's address |
| RequestRuns.ArchivedProjectsAreFrozen | app/services/task_service.py:183-184 | over any sequence of requests, the tasks, labels and pairs of an archived project never change |
| RequestRuns.CallbacksFollowTheirCommit | app/db/session.py:82-91 | in the event trace of any sequence, an invalidation directly follows the commit and close of its own request, and a mail directly follows that invalidation |
| RequestRuns.EffectsMatchChanges | app/services/task_service.py:135-157 | over any sequence, invalidations of a project are exactly as many as committed operations on its tasks and pairs, which are at least the committed changes of its task rows, and mails for a task are exactly as many as committed new assignments |
| RequestRuns.DistinctIdsAreFresh | app/db/base.py:15-20 | ids that are new and pairwise different stay unused until their own request |
| LabelTriggerSafety.SameProjectAlways | app/db/migrations/versions/5a9ec52dd048_enforce_label_task_integrity.py:59-181 | from valid rows, for every interleaving with aborts, committed pairs join a task and a label of one project, as long as no pair is written whose trigger read null for a parent |
| LabelTriggerCallers.SameProjectForCarefulCallers | app/db/migrations/versions/5a9ec52dd048_enforce_label_task_integrity.py:59-181 | the same with a condition on callers only: each pair write begins in a transaction that sees both rows |
| LabelTriggerGuarantee.GuaranteedExactly | app/db/migrations/versions/5a9ec52dd048_enforce_label_task_integrity.py:59-181 | for every database and every set of pairs to be written: all interleavings of transactions that write only those pairs keep every committed pair in one project exactly when they are so at the start and both rows of each such pair are committed |
| LabelTriggerAcceptance.WrittenExactly | app/db/migrations/versions/5a9ec52dd048_enforce_label_task_integrity.py:59-94 | in any state beside other transactions without conflicting locks, an insert or update of a pair commits exactly when both rows are there in one project and no other row holds the pair, and then changes that pair only |
| LabelTriggerAcceptance.ValidPairIsAccepted | app/db/migrations/versions/5a9ec52dd048_enforce_label_task_integrity.py:79-89 | on every valid database a pair whose two rows share a project is inserted and committed |
| LabelTriggerAcceptance.PairRaisesExactly | app/db/migrations/versions/5a9ec52dd048_enforce_label_task_integrity.py:79-89 | in every reachable state the pair trigger raises exactly when it has read the task, reads the label, and sees them in different projects |
| LabelTriggerAcceptance.FirstReadRemembers | app/db/migrations/versions/5a9ec52dd048_enforce_label_task_integrity.py:67-71 | the first read never raises and remembers the project of the row it sees, or null |
| LabelTriggerAcceptance.TaskMovesExactly | app/db/migrations/versions/5a9ec52dd048_enforce_label_task_integrity.py:112-133 | a task moves exactly when it stays in its project or none of its labels is elsewhere, and then its project alone changes |
| LabelTriggerAcceptance.TaskMoveRaisesExactly | app/db/migrations/versions/5a9ec52dd048_enforce_label_task_integrity.py:116-129 | a label that the task trigger re-reads makes it raise exactly when it is not in the new project |
| LabelTriggerAcceptance.LabelMovesExactly | app/db/migrations/versions/5a9ec52dd048_enforce_label_task_integrity.py:151-172 | the same for labels and their tasks |
| LabelTriggerAcceptance.LabelMoveRaisesExactly | app/db/migrations/versions/5a9ec52dd048_enforce_label_task_integrity.py:155-168 | the same for the label trigger and the tasks it re-reads |
| LabelTriggerAcceptance.PairIsDeleted | app/repositories/task_label_repository.py:24-30 | a pair that nobody else is writing can be deleted, and it alone is gone |
| LabelTriggerSafety.MissingParentBreaksIt | app/db/migrations/versions/5a9ec52dd048_enforce_label_task_integrity.py:79-89 | for every database, label and new task of another project there is a run that commits a cross-project pair past the trigger |
| LabelTriggerSafety.MissingLabelBreaksIt | app/db/migrations/versions/5a9ec52dd048_enforce_label_task_integrity.py:79-89 | the same for every task and every new label of another project |
| LabelTriggerSafety.CommitKeeps | app/db/migrations/versions/5a9ec52dd048_enforce_label_task_integrity.py:67-77 | a commit keeps what every other open transaction sees valid, because their locks keep their rows apart |
| LabelTriggerSafety.TxNextOk | app/db/migrations/versions/5a9ec52dd048_enforce_label_task_integrity.py:112-171 | each step inside a transaction keeps its view valid and takes only locks that no other transaction excludes |
| RefreshSessionRuns.RotatesAtMostOnce | app/repositories/refresh_session_repository.py:43-85 | for any number of concurrent refreshes and logouts, each row has at most one committed revocation, a rotation exactly when it has a successor, never both a rotation and a logout |
| RefreshSessionRuns.RevocationIsFinal | app/repositories/refresh_session_repository.py:64-85 | no continuation of a run changes a revoked row, or any row's owner or token |
| RefreshSessionRuns.RolledBackRefreshLeavesNoTrace | app/services/auth_service.py:88-128 | a refresh past validation that rolls back leaves its row unrevoked, without successor and unlogged, and its replacement uninserted |
| RefreshSessionRuns.ChainsAreOrdered | app/services/auth_service.py:91-124 | along any chain of any reachable state: no repetition, one user, all but the last row revoked before their own expiry, revocations non-decreasing, each successor living a full lifetime past its predecessor's revocation |
| RefreshSessionRuns.ChainsAreDisjoint | app/repositories/refresh_session_repository.py:64-72 | two chains that end in the same row agree as far back as both reach |
| RefreshSessionRuns.OpenSessionsBounded | app/services/auth_service.py:138-158 | unrevoked rows never outnumber committed registrations and logins |
| RefreshSessionSafety.CommitKeeps | app/repositories/refresh_session_repository.py:43-72 | a commit keeps the invariant of all rows and of every other open request |
| RefreshSessionSafety.RunKeeps | app/services/auth_service.py:88-158 | every run keeps the invariant of rows, open requests, log and open-session count |
| RefreshOutcomes.RefreshCommitsExactly | app/services/auth_service.py:88-128 | from every reachable state an uninterrupted refresh commits exactly when the token has an unrevoked row, has not expired and its user is active; it revokes and links that row, adds one open row of a full lifetime, and changes nothing else |
| RefreshOutcomes.SpentForGood | app/services/auth_service.py:160-176 | once a token's row is revoked, by rotation or logout, every continuation refuses the token at every time and keeps the row |
| RefreshOutcomes.SignInOpensSession | app/services/auth_service.py:138-158 | a sign-in adds one open row, and its token can be refreshed exactly until a full lifetime has passed |
| RefreshOutcomes.LogoutRevokes | app/repositories/refresh_session_repository.py:75-85 | a logout stamps the token's open row, after which the token is refused at every time, and touches nothing else |
| RefreshOutcomes.UninterruptedLogout | app/services/auth_service.py:130-136 | a logout of the protocol that nobody interrupts commits the rows of the service's |
| AuthService.AuthService.Refresh | app/services/auth_service.py:88-128 | succeeds exactly for a usable session of an active user, fails as inactive exactly for a usable session of an inactive one, changes nothing on failure, and writes exactly the rotation on success |
| AuthService.AuthService.Logout | app/services/auth_service.py:130-136 | revokes the presented token's open session and nothing else; no token, an unknown token and a revoked one change nothing |
| AuthService.AuthService.ValidateRefreshSession | app/services/auth_service.py:160-176 | accepts exactly an existing, matching, unrevoked, unexpired session |
| AuthService.RefreshSessionRepository.Rotate | app/repositories/refresh_session_repository.py:55-73 | the three writes together are the rotation: old row revoked and linked, replacement inserted |
| AuthService.RefreshSessionRepository.RevokeByToken | app/repositories/refresh_session_repository.py:75-85 | exactly the open sessions of the token are revoked |
| AuthService.RefreshSessionRepository.GetByTokenForUpdate | app/repositories/refresh_session_repository.py:43-53 | the row of the token if there is one, else none |
| AuthService.RotationReplacesTheToken | app/services/auth_service.py:88-128 | after a rotation the old token is refused at every later time and the new one is accepted exactly until it expires |
| AuthService.UninterruptedRefresh | app/services/auth_service.py:88-128 | in the concurrent protocol an uninterrupted refresh commits exactly the rotation of the service |
| AuthService.LogoutIsRevocation | app/repositories/refresh_session_repository.py:75-85 | revoking by token is revoking the one row the lock protocol finds, and doing it again changes nothing |
| Background.Drain | app/core/background.py:30-53 | when shutdown has returned, every task ever accepted is done, later submits change nothing, and the cancelled tasks are exactly those unfinished at the end of the grace period |
| Background.NothingAcceptedAfterwards | app/core/background.py:16-32 | from the call of shutdown on, no task is ever accepted |
| Background.NoAbandonedSend | app/notifications/gmail.py:28-40 | whatever step the one cancellation reaches, a finished task has no unfinished send, and after shutdown no send is unfinished |
| Background.UnfinishedTasksMove | app/notifications/gmail.py:36-40 | every unfinished task has a possible step and every step shortens its way to the end, so draining cannot get stuck |
| BackgroundOutcomes.SubmitTracks | app/core/background.py:16-22 | an accepted submit adds one tracked task that has not started; a refused one changes nothing |
| BackgroundOutcomes.SentExactlyIfStarted | app/notifications/gmail.py:28-40 | whatever follows, a task whose message builds before it is cancelled has its send ended when it is done, and any other task never sends |
| BackgroundOutcomes.UndisturbedTaskSends | app/core/background.py:16-28 | an undisturbed task sends, ends uncancelled and is forgotten |
| BackgroundOutcomes.ShutdownWaits | app/core/background.py:30-35 | shutdown stops accepting, and returns at once exactly without tasks |
| BackgroundOutcomes.GraceEndsExactly | app/core/background.py:37-46 | in every reachable state the wait ends exactly when all tasks are done or time is up, and cancels exactly the unfinished ones |
| BackgroundOutcomes.GatherEndsExactly | app/core/background.py:48-53 | after a cancellation shutdown returns exactly when every task is done |
| Background.BackgroundTaskDispatcher.Submit | app/core/background.py:16-22 | refused exactly when not accepting; otherwise one more pending task, as in the protocol |
| Background.BackgroundTaskDispatcher.BeginShutdown | app/core/background.py:30-35 | stops accepting and snapshots the tasks, as in the protocol |
| Background.BackgroundTaskDispatcher.EndGrace | app/core/background.py:37-46 | returns or cancels all pending tasks, as in the protocol |
| Background.BackgroundTaskDispatcher.CancelAll | app/core/background.py:48-50 | the loop requests cancellation of each unfinished pending task and of no other |
| RedisClient.SingleSharedClient | app/db/session.py:37-67 | over every interleaving with arbitrary ping failures at most one client is published, every successful call returned it, it is open, and in every state every other client is closed or in the hands of the lock holder |
| RedisClient.PublishedForGood | app/db/session.py:37-44 | after publication no step changes the client, and a call that starts then returns it at once |
| RedisClient.WaiterGetsPublished | app/db/session.py:42-44 | in every reachable state, a call that waited for the lock while another published gets that client and builds none |
| RedisClient.UninterruptedCall | app/db/session.py:46-67 | a first call that nobody overtakes publishes and returns its client if it pings, and otherwise closes it, publishes nothing and frees the lock |
| RedisClient.Connection.Init | app/db/session.py:46-67 | a lone call returns the published client, or publishes a fresh one that pings, or closes it and fails |

## Left out

- HTTP routing, cookies, exception-to-status mapping, logging, settings: no state worth proving; nothing is claimed about when a response is sent relative to the commit.
- JWT signing and decoding, bcrypt, random ids: tokens and ids are values that are fresh when drawn. Hashing a refresh token is taken as injective, so rows carry the token itself; a logout with a token that was never issued is not a step, since it finds no row.
- SHA-256: a parameter of the key printer; results assume that it does not collide on the finitely many queries in use.
- The database driver's own encoding of parameters: the two statements are taken to accept every accepted due bound, also one whose key cannot be printed, and every offset, although page numbers have no upper bound.
- Page payloads: saving and loading is the identity; text that does not load is `Garbage`.
- SMTP, message building, HTML escaping: building a message may fail, sending is a thread that ends.
- The concurrent protocols (`CacheProtocol`, `LabelTriggers`, `RefreshSessions`, `Background`, `RedisClient`) are state machines over values rather than classes, because their steps interleave across awaits; the classes beside them model one request at a time.
- Deletion of tasks and labels inside the trigger protocol: it removes pairs only. Deletion in sequence is in `ServiceRules`.
- Unique-violation races on label names and e-mail addresses, and the checks of role, membership and archive status under concurrency: nothing locks them, so they are stated for completed operations in sequence.
- Deadlock detection and liveness of PostgreSQL and Redis: an abort is a possible step, safety is proved.
- Cancellation of a request in flight, and `close_redis` racing with `init_redis`: the code makes no promise there.
- Comments, profiles, membership management, workspace and project creation: the reference run lets them replace their own tables between requests (`RequestRuns.WithElsewhere`), keeping existing projects.
- Validation of titles, names and colours before a service is called.
- Sizes of text columns and the SQLAlchemy identity map.
- LabelTriggerSafety.SameProjectAlways: says nothing of a single run that writes an unchecked pair, which may happen to match; over all runs `LabelTriggerGuarantee.GuaranteedExactly` is exact.
- Projects inside the trigger protocol: new tasks and labels may name any project, also one that appears meanwhile.
- Application.Application.Serve: when INCRs can be lost the answers are not claimed; `CacheRuns` bounds them instead.
