# Supervisor verification

A Dafny model of the estate supervisor: the ledger that decides which lane may be sent work, the
processes that drive it and may die between any two steps, and five algorithms beside it. `dafny verify
dfyconfig.toml` checks every file.

## What is modelled

**The ledger.** `lanes`, `tasks`, `source_tasks` and `events` are maps; the one-open-task index, the
foreign keys and the open-pull trigger are checks that refuse a write; a transaction is a state and the
state it is rolled back to; a failpoint is a chosen abort; the results directory is a further map that no
rollback touches. `Tables` holds the rows and the invariant, `LedgerSpec` what each of eighteen operations
leaves behind, `Ledger.dfy` the operations themselves as methods of a class that change those tables in
place, each shown equal to its specification. `Columns` says of every operation what it answers and what every
column then holds, over the rows alone. `LedgerInvariants`, `Lifecycle`, `Occupancy`, `PullRequests`
and `Results` say what holds over every run.

**The processes.** `DispatchProtocol` runs any number of dispatchers (claim, commit, send, record, release)
against that ledger with reapers and everything else the estate does. `Adapter` runs the four `assign_task`
methods step by step with the operation lock as part of the state, and `AdapterClass` is the same call as
one object over the ledger class. `Redispatch` is the recording command, `Lease` the supervisor's own lease.

**Beside it.** `ShardPlan` (longest processing time first, with its approximation bound), `JsonRpc` and
`AcpTransport` (the pending table shared by callers and a reader), `CiGate` (the merge gate), `Progress`
(commits of a path's current incarnation), `Json`, `Markers` and `GithubSource` (task state kept in GitHub
text), `Migrations` (table rebuilds against a catalogue) and `Opening` (the rebuilds, the
review column and the trigger in the order a ledger file is opened).

## What is assumed

- Claim tokens hold no colon. In `DispatchProtocol` no two live processes share a token or a host and pid, a
  token is taken up again only once every claim under it is finished or gone, and the reaper's liveness test
  never calls a live process dead. `Occupancy.SameTokenPassesTwice` says what the first of these is for.
- Every ledger write holds the ledger's lock, so each ledger method is one step; the kernel gives the lock
  back when its holder dies.
- The digest of a result is an arbitrary function; nothing needs it to be injective. Times are natural
  numbers passed in; weights are exact reals; strings are sequences of characters.
- Writing a JSON-RPC request out does not raise.

## Where the code and its own words differ

- `record_dispatch` takes a `transport` argument and never forwards it (core_ledger_lifecycle.py:246,
  304-317); a dispatch records the harness's first transport whatever the caller said
  (`DispatchSteps.DispatchRecordsFirstTransport`), and the headless adapters refuse that lane until it is registered
  again (`Adapter.DispatchedLaneRefusesHeadless`). The model follows the code.
- The recording command promises that after any failure the lane does not read free. It does when a
  finished hold of the same second is in the way (`Occupancy.HeldLaneReadsFreeIff`); `Occupancy.SpentSecondLeavesLaneFree`
  is a run that ends so.
- One open task per pull request does not survive assigning a second task whose source was written while
  the first had none (`PullRequests.AssignEscapes`); `PullRequests.StepKeepsUniqueIff` says exactly when.
- Opening a ledger is said to refuse duplicate open pulls. It looks for them only while the trigger does not
  exist (core_ledger_schema.py:1310-1315), so a duplicate that slipped past the trigger is never reported
  (`PullRequests.ReopeningMissesDuplicates`); `PullRequests.OpeningOutcome` says exactly when uniqueness follows.
- The refusal tells the operator to cancel or complete one of the tasks by command and reopen
  (core_ledger_schema.py:1298-1303, 1330-1335). Every command of the ledger opens it first (cli.py:214),
  so those are refused as well. The session backfill connects to the file itself and is not, but it touches
  neither tasks nor sources, so the refusal stands (`PullRequests.RefusedForGood`).
- The sibling slot of a reconciler's verdict is another task's own slot when that task's id is the judged
  one plus `.reconcile`, which is a valid id; that task then completes with the verdict for its result (`Results.VerdictIsAdopted`,
  `Results.VerdictCanTakeASlot`).
- A claim taken again over a finished row that some event names cannot be given up: releasing it raises, and once
  its owner is gone every reap on that host raises and takes nothing (core_ledger_claims.py:191-200, 293-296,
  361-376). `Columns.NamedClaimHappens` is a run to such a claim; `Columns.ReapTakes` says exactly when a reap raises.
- A pull an open task works on is refused to a dispatch into another lane (`Columns.PullIsGuarded`), but not into
  that task's own lane: the new pane cancels the task first and takes the pull over
  (`Columns.SameLaneTakesThePullOver`).
- A status published with evidence that spells the marker's closing text makes every later load of that
  issue fail (`GithubSource.PublishThenLoad`, `GithubSource.ClosingTextStopsLoading`).
- The gate is said to evaluate the latest run of a name; between two equally old ones the order of the
  list decides (`CiGate.TieIsDecidedByOrder`); `CiGate.OrderDecidesIff` says exactly when.

## Model

| member | source | states |
|---|---|---|
| DispatchProtocol.NeverTwoLiveBriefs | reference/scripts/supervisor/core_ledger_claims.py:82-376 | over every interleaving of any number of dispatchers, killable between any two steps, with reapers and the rest of the estate running beside them, when a brief is sent into a lane every brief ever sent there before belongs to a task already terminal |
| DispatchProtocol.OneLiveBriefPerLane | reference/scripts/supervisor/core_constants.py:41-72 | in every reachable state at most one brief per lane is live, recorded or not |
| DispatchProtocol.LiveBriefHoldsLane | reference/scripts/supervisor/core_ledger_lanes.py:220-239 | a lane with a live brief never reads free: first its committed claim, later its recorded task, is open there |
| DispatchProtocol.RecordTakesOwnClaim | reference/scripts/supervisor/core_ledger_lifecycle.py:302-374 | recording a dispatch cancels the recorder's own claim and nothing else, adds one row, and leaves every other row as it was |
| DispatchProtocol.ReapStands | reference/scripts/supervisor/core_ledger_claims.py:358-376 | a reaper that never calls a live process dead takes no live process's claim and no committed one |
| DispatchProtocol.EnvStands | reference/scripts/supervisor/core_ledger_claims.py:249-256 | no ordinary operation of anyone else disturbs a claim that is still open or makes one |
| DispatchProtocol.RunKeeps | reference/scripts/supervisor/core_ledger_claims.py:119-376 | the protocol's invariant holds in every state of every run |
| DispatchProtocol.DispatchGoesThrough | reference/scripts/supervisor/core_ledger_claims.py:82-257 | from every reachable state a dispatcher that finds a lane free for a new pane and a new task, its pull held by nobody, can claim it, commit, send and record, one after another, and its task is then delivered and what is open there |
| Adapter.AtMostOnceSend | reference/scripts/supervisor/adapter.py:179-237 | over every interleaving of `assign_task` calls of all four adapters, crashes at any point, re-registrations and reconciliations, no task is physically sent twice, and a task once sent is never `created` again |
| Adapter.AttemptStepKeeps | reference/scripts/supervisor/adapter.py:227-237 | inside the lock an attempt can be put on record only for a task still `created`, and such a task has never been sent |
| Adapter.UnlockedSendsTwice | reference/scripts/supervisor/core_ledger_lifecycle.py:79-80 | without the operation lock two calls past the guard send any new deliverable task twice, because marking a pending delivery pending again succeeds silently: the run is given |
| Adapter.DispatchedLaneRefusesHeadless | reference/scripts/supervisor/adapter.py:466-472 | after a recorded dispatch the two headless adapters refuse the lane over any run in which it is not registered again under a headless transport |
| Adapter.HeadlessIff | reference/scripts/supervisor/core_ledger_lanes.py:59-192 | one step gives a lane a headless transport exactly when it registers it so |
| Adapter.TmuxSendsWhenIdle | reference/scripts/supervisor/adapter.py:188-190 | over any run a tmux brief is sent only by a call whose guard saw the pane match its lane and idle |
| Adapter.LetThrough | reference/scripts/supervisor/adapter.py:466-472 | over any run a call past its guard was let through while its lane was registered, its delivery was not in doubt and the lane was of the adapter's own harness and transport |
| Adapter.InlineCompletion | reference/scripts/supervisor/adapter.py:511-515 | over any locked run only an ACP or pi-rpc call completes its task; with a message that can be stored the task is complete and its result the digest of that message, unless a file was already there |
| Adapter.ConfirmingEndsOrContinues | reference/scripts/supervisor/adapter.py:714-717 | a confirmed delivery ends a tmux or claude-print call, its task delivered, and leaves the other two to complete theirs |
| AdapterClass.TaskAdapter.AssignTask | reference/scripts/supervisor/adapter.py:350-392 | of a task not yet assigned, succeeds exactly when the lane is the adapter's own (and idle, for tmux), the source is open and not begun, the lane is empty, the transport answered and, for ACP and pi-rpc, its message can be stored; the task is then complete with that message for ACP and pi-rpc, delivered for tmux and claude-print; in any case a prefix of the ledger operations takes effect, the brief goes out at most once and only after the attempt is recorded, and an unconfirmed delivery is refused outright |
| AdapterClass.TaskAdapter.PutOnRecord | reference/scripts/supervisor/adapter.py:487-502 | reaching the send means the attempt is on record and this task was never sent before; a new task gets there exactly when it can be assigned and the prompt was prepared |
| AdapterClass.TaskAdapter.Confirm | reference/scripts/supervisor/adapter.py:511-515 | after the send: complete with the answered message exactly for ACP and pi-rpc, delivered exactly for tmux and claude-print; a pending delivery of the lane's own incarnation fails to get there only by a message that cannot be stored |
| LedgerInvariants.Reachable | reference/scripts/supervisor/core_ledger_schema.py:164-166 | in every reachable state each lane has at most one open task, every task's lane is registered, every claim and hold is named after its own lane, every recorded hash is that of an existing file, every completed task has its event, every event's clocks fit its status |
| LedgerInvariants.ApplyKeeps | reference/scripts/supervisor/core_ledger_core.py:197-209 | every one of the eighteen operations, failing or succeeding, keeps that invariant |
| LedgerInvariants.FilesOnlyGrow | reference/scripts/supervisor/core_ledger_completion.py:61-89 | no operation rewrites or removes a result file |
| Columns.RegisterAccepts | reference/scripts/supervisor/core_ledger_lanes.py:59-115 | a registration is accepted exactly when nothing is empty and the harness can be driven by the named transport |
| Columns.RegisterRecords | reference/scripts/supervisor/core_ledger_lanes.py:116-192 | the row holds what was given, the harness's own transport where none was, and of a session id not given the one recorded by the same incarnation |
| Columns.RegisterCancels | reference/scripts/supervisor/core_ledger_lanes.py:129-169 | cancelled is the lane's open task when any of the eight identity columns changed and its delivery is not in doubt; no other row changes |
| Columns.ClaimWrites | reference/scripts/supervisor/core_ledger_claims.py:166-207 | a free lane is claimed by a reserved row that bears the lane's current nonce and this summary and no trace of a claim finished before under the same id |
| Columns.ClaimRefuses | reference/scripts/supervisor/core_ledger_claims.py:126-165 | an unknown lane is answered as unknown, a taken one with the id that has it; nothing changes |
| Columns.CommitAnswers | reference/scripts/supervisor/core_ledger_claims.py:209-257 | missing without a row of that lane, committed from reserved or live, otherwise refused with the status found |
| Columns.ReleaseDeletes | reference/scripts/supervisor/core_ledger_claims.py:286-304 | a reserved claim of this lane is deleted unless an event names it, and then it raises; anything else is left and answered false |
| Columns.HoldWrites | reference/scripts/supervisor/core_ledger_claims.py:63-80 | the hold is one new open row of the lane, under its nonce, with the note |
| Columns.DeadOwnersClaimIsReaped | reference/scripts/supervisor/core_ledger_claims.py:358-376 | a claim new to its id, whatever its note, is gone after a reap exactly when the reap ran on its owner's host, saw the owner gone and did not raise; the lane then reads free; it raises exactly when an event names some other reservation of a process it calls gone |
| Columns.ReapTakes | reference/scripts/supervisor/core_ledger_claims.py:361-376 | in any valid state a reap takes exactly the reservations whose summary names a gone process of this host, or raises and takes nothing exactly when an event names one of them |
| Columns.NamedClaimCannotBeTakenBack | reference/scripts/supervisor/core_ledger_claims.py:191-200 | a claim revived over a row an event names can be neither released nor, once its owner is gone, reaped, and every other claim on that host stays with it |
| Columns.NamedClaimHappens | reference/scripts/supervisor/core_ledger_claims.py:293-296 | a run of five operations from the empty ledger after which the next claim under that token is such a claim |
| Columns.ReconstructWrites | reference/scripts/supervisor/core_ledger_source_tasks.py:41-155 | a source is written exactly when its fields say enough and no other open task holds its pull; the row then holds every field given |
| Columns.UpdateSourceWrites | reference/scripts/supervisor/core_ledger_source_tasks.py:182-202 | the row afterwards holds both facts given, keeps the others, and is stamped exactly when one of the two changed |
| Columns.AssignWrites | reference/scripts/supervisor/core_ledger_lifecycle.py:19-70 | when a task new to its id is assigned, and every column of its row |
| Columns.AssignAgain | reference/scripts/supervisor/core_ledger_lifecycle.py:34-57 | an id already assigned is answered again exactly when lane, nonce and summary agree and its source is still open; nothing changes |
| Columns.TransitionWrites | reference/scripts/supervisor/core_ledger_lifecycle.py:72-108 | when each of the three moves succeeds, the status it leaves, and its own stamp as the only other column that changes |
| Columns.ReconcileWrites | reference/scripts/supervisor/core_ledger_lifecycle.py:110-155 | a delivery in doubt becomes delivered or failed, as it was reconciled, with the stamp of that end |
| Columns.BackfillWrites | reference/scripts/supervisor/core_ledger_source_tasks.py:246-262 | an empty worktree of a complete task becomes the path given; no other column changes |
| Columns.DispatchSucceeds | reference/scripts/supervisor/core_ledger_lifecycle.py:302-374 | a dispatch under a new id is recorded exactly when its fields say enough, the lane's open task if any is of another incarnation and not in doubt, and no open task of another lane holds its pull |
| Columns.DispatchResumesWhen | reference/scripts/supervisor/core_ledger_lifecycle.py:34-57 | under its own id exactly when the row is an unconfirmed assignment of the same lane, nonce and summary, in doubt or of the incarnation the lane is registered under |
| Columns.DispatchWrites | reference/scripts/supervisor/core_ledger_lifecycle.py:302-374 | every column of the task's, the source's and the lane's row after a recorded dispatch |
| Columns.PullIsGuarded | reference/scripts/supervisor/core_ledger_schema.py:1183-1206 | a pull an open task of another lane works on cannot be dispatched under another id |
| Columns.SameLaneTakesThePullOver | reference/scripts/supervisor/core_ledger_lanes.py:129-169 | in its own lane it can, exactly unless its delivery is in doubt: the task that held it is cancelled |
| Columns.ConcludeWrites | reference/scripts/supervisor/core_ledger_completion.py:96-137 | of a task without a result: complete succeeds exactly from the five open statuses, the three verdicts from delivered (one of them only if never accepted) or accepted; the file, final status, digest, stamps and event that are then on record |
| Columns.ConcludeRefuses | reference/scripts/supervisor/core_ledger_completion.py:96-117 | another's nonce, an unknown or ill-formed id or a result that cannot be stored is an error and leaves no trace |
| Columns.CancelOpenWrites | reference/scripts/supervisor/core_ledger_lifecycle.py:202-223 | cancelling by hand succeeds exactly when either a result that can be stored or abandonment is given, and records that result, its path and digest, or none |
| Columns.ObserveWrites | reference/scripts/supervisor/core_ledger_events.py:27-48 | the first sight of a reason raises one pending event about the lane's delivered, accepted or running task; seen again it raises none |
| Columns.ReasonsAreApart | reference/scripts/supervisor/core_ledger_events.py:39-39 | two reasons of one task are two events |
| Columns.NotifiedComesDueAgain | reference/scripts/supervisor/core_ledger_events.py:85-95 | an event notified and not acknowledged is due exactly from the given number of seconds later on |
| Columns.AckWrites | reference/scripts/supervisor/core_ledger_events.py:97-111 | acknowledging succeeds exactly when every key is known and none is an attention whose task is open; those events alone change |
| Occupancy.ClaimedIffSoleOwner | reference/scripts/supervisor/core_ledger_claims.py:201-207 | `claimed` is answered exactly when this token's claim is afterwards the lane's sole open task; a refusal names the sole occupant and changes nothing |
| Occupancy.ClaimExcludes | reference/scripts/supervisor/core_ledger_claims.py:126-165 | of two different tokens the second is refused and told who holds the lane |
| Occupancy.ReleaseUndoesClaim | reference/scripts/supervisor/core_ledger_claims.py:291-304 | releasing a fresh claim restores exactly the tables it found |
| Occupancy.CommittedClaimSurvives | reference/scripts/supervisor/core_ledger_claims.py:241-257 | a committed claim is out of reach of release and reaping, and committing again changes nothing |
| Occupancy.SameTokenPassesTwice | reference/scripts/supervisor/core_ledger_claims.py:201-257 | a claim already committed is handed out again, and commits again, to anyone with its token: why no two live processes may share one |
| Occupancy.DispatchTakesLane | reference/scripts/supervisor/core_ledger_lanes.py:129-169 | a recorded dispatch is its lane's only open task, delivered, under the new nonce; whatever stood there is cancelled with its source; nothing else changes |
| Occupancy.PendingBlocksDispatch | reference/scripts/supervisor/core_ledger_lanes.py:139-143 | an occupant whose delivery is ambiguous makes the whole dispatch fail unless it is this very task and nonce |
| Occupancy.FreshNonceDispatches | reference/scripts/supervisor/core_ledger_lifecycle.py:302-374 | with a fresh nonce and a new id a dispatch fails exactly when an ambiguous delivery holds the lane or the pull request is taken |
| Occupancy.HeldLaneReadsFreeIff | reference/scripts/supervisor/core_ledger_claims.py:63-80 | a hold leaves the lane reading free exactly when the lane was free and a finished hold of the same second is in the way |
| Occupancy.SpentSecondLeavesLaneFree | reference/scripts/supervisor/core_ledger_claims.py:68-78 | a run from the empty ledger, at any second: held, re-registered, recorded in vain and held again, after which the lane reads free |
| DispatchSteps.StepwiseMeetsSpec | reference/scripts/supervisor/core_ledger_lifecycle.py:303-374 | the five writes one after another succeed exactly under the stated condition and leave exactly the stated tables |
| DispatchSteps.DispatchRecordsFirstTransport | reference/scripts/supervisor/core_ledger_lifecycle.py:246-317 | recording a dispatch leaves the lane with its harness's first transport; it agrees with registering the same arguments exactly when none was named or it is the first |
| LedgerClass.Ledger.SelectOpen | reference/scripts/supervisor/core_ledger_lanes.py:220-239 | finds the lane's open task if it has one |
| LedgerClass.Ledger.InsertTask | reference/scripts/supervisor/core_ledger_schema.py:124-166 | an insert is refused exactly by the primary key, the lane's foreign key or the one-open-task index |
| LedgerClass.Ledger.RegisterLane | reference/scripts/supervisor/core_ledger_lanes.py:59-192 | a new incarnation cancels the outstanding task unless its delivery is ambiguous; recorded session ids survive an unresolved one |
| LedgerClass.Ledger.ClaimLaneTx | reference/scripts/supervisor/core_ledger_claims.py:121-207 | the insert, the revival of a finished claim and the closing select together compute the specified claim, and the revival never meets the index when the row is of its own lane |
| LedgerClass.Ledger.ClaimLane | reference/scripts/supervisor/core_ledger_claims.py:82-207 | with a colon-free token a claim never raises in a reachable state |
| LedgerClass.Ledger.CommitLaneClaim | reference/scripts/supervisor/core_ledger_claims.py:209-257 | missing, already live, refused or committed, and the exact new tables |
| LedgerClass.Ledger.ReleaseLaneClaim | reference/scripts/supervisor/core_ledger_claims.py:259-304 | deletes only this claim while only reserved; an event on it blocks the delete |
| LedgerClass.Ledger.ReapTx | reference/scripts/supervisor/core_ledger_claims.py:361-376 | the row-by-row loop takes exactly the reserved claims whose summary names a process of this host that is gone, or, when an event names one of them, nothing and answers an error |
| LedgerClass.Ledger.ReapStaleLaneClaims | reference/scripts/supervisor/core_ledger_claims.py:306-376 | the same, in any reachable state, keeping the invariant; in terms of the rows before and after |
| LedgerClass.Ledger.MarkLaneHeld | reference/scripts/supervisor/core_ledger_claims.py:63-80 | a hold is written exactly when nothing else makes the lane read occupied |
| LedgerClass.Ledger.ReconstructTask | reference/scripts/supervisor/core_ledger_source_tasks.py:41-155 | the source upsert, its field checks and the open-pull trigger |
| LedgerClass.Ledger.UpdateSourceTaskState | reference/scripts/supervisor/core_ledger_source_tasks.py:182-202 | advances only the two derived columns, and only when they differ |
| LedgerClass.Ledger.Assign | reference/scripts/supervisor/core_ledger_lifecycle.py:19-70 | assigns an open source once, answers an identical assignment again, refuses every other |
| LedgerClass.Ledger.Transition | reference/scripts/supervisor/core_ledger_lifecycle.py:72-108 | the lane's current incarnation moves its task one step forward or repeats the step it is on |
| LedgerClass.Ledger.ReconcileDelivery | reference/scripts/supervisor/core_ledger_lifecycle.py:110-155 | only an ambiguous delivery is resolved, authenticated by the task's own nonce |
| LedgerClass.Ledger.BackfillTaskWorktreePath | reference/scripts/supervisor/core_ledger_source_tasks.py:246-262 | fills an empty worktree of a complete task, once |
| LedgerClass.Ledger.RecordDispatch | reference/scripts/supervisor/core_ledger_lifecycle.py:225-374 | all or nothing: success exactly under the stated condition, and any failure, at any named failpoint, leaves every table as it was |
| LedgerClass.Ledger.Conclude | reference/scripts/supervisor/core_ledger_completion.py:96-385 | `complete` and the three verdicts: the file first, then the row and its event together; asked for by the task's own nonce with a result that can be stored and none recorded yet, they succeed exactly in the statuses each is for |
| LedgerClass.Ledger.StoreResult | reference/scripts/supervisor/core_ledger_completion.py:54-89 | write once, adopt an orphan, defend a recorded result |
| LedgerClass.Ledger.CancelOpenTask | reference/scripts/supervisor/core_ledger_lifecycle.py:202-223 | cancels the occupant with or without a recovered result, which the caller must say |
| LedgerClass.Ledger.ObserveAttention | reference/scripts/supervisor/core_ledger_events.py:27-48 | one durable event per task and reason, only for a delivered, accepted or running task; the event answered is the one on record |
| LedgerClass.Ledger.EventsDue | reference/scripts/supervisor/core_ledger_events.py:71-83 | in every reachable state exactly the events not acknowledged that were never notified or whose retry second has come; whatever is left out is acknowledged or has its retry still ahead |
| LedgerClass.Ledger.MarkNotified | reference/scripts/supervisor/core_ledger_events.py:85-95 | all or nothing over its keys; an acknowledged event stays acknowledged |
| LedgerClass.Ledger.Ack | reference/scripts/supervisor/core_ledger_events.py:97-111 | all or nothing over its keys; an attention cannot be acknowledged before its task is disposed of |
| Lifecycle.RunMonotone | reference/scripts/supervisor/core_ledger_lifecycle.py:72-158 | over any run a task that is not a claim is never deleted, keeps lane, nonce, pane, summary and birth, changes status only upward in rank, stops for good at a terminal one with its result, and has its worktree filled at most once, from empty |
| Lifecycle.StepMonotone | reference/scripts/supervisor/core_ledger_source_tasks.py:230-262 | the same for each single operation |
| Lifecycle.RunEvents | reference/scripts/supervisor/core_ledger_events.py:85-111 | events are never dropped, never change what they say, and an acknowledgement is for good |
| Lifecycle.NothingUnackedIsLost | reference/scripts/supervisor/core_ledger_events.py:71-83 | an event is due exactly when unacknowledged and never notified or past its retry time, and one notified always has a retry time |
| Lifecycle.UnackedComesDue | reference/scripts/supervisor/core_ledger_events.py:85-95 | every unacknowledged event is due from some second on |
| Lifecycle.AckedAttentionIsOver | reference/scripts/supervisor/core_ledger_events.py:104-107 | an acknowledged attention of a task that is not a claim means that task is terminal and stays so |
| Lifecycle.CompletionAnnounced | reference/scripts/supervisor/core_ledger_completion.py:118-135 | a complete task has its completion event and keeps it |
| Results.CrashLeavesOnlyTheFile | reference/scripts/supervisor/core_ledger_completion.py:96-137 | a crash at any failpoint leaves the tables untouched and the file written once |
| Results.RetryAdoptsFirstFile | reference/scripts/supervisor/core_ledger_completion.py:62-72 | retrying with any bytes, after anything else has happened, settles on the digest of the first file written |
| Results.RunKeepsFile | reference/scripts/supervisor/core_ledger_completion.py:81-89 | no file changes over any run |
| Results.RecordedResultIsDefended | reference/scripts/supervisor/core_ledger_completion.py:63-72 | a recorded result accepts only its own digest again |
| Results.VerdictSlotIff | reference/scripts/supervisor/core_ledger_completion.py:182-184 | a verdict's file is some task's own slot exactly when that task's id is the judged one plus `.reconcile` |
| Results.VerdictCanTakeASlot | reference/scripts/supervisor/core_ledger_completion.py:275-277 | a run of four operations from the empty ledger, with any two results, after which a task is complete with another task's verdict for its result |
| Results.VerdictIsAdopted | reference/scripts/supervisor/core_ledger_completion.py:62-72 | once a verdict has filled another task's slot, that task's own completion, whatever it brings and whatever happened in between, succeeds with the verdict as its result |
| Results.VerdictLeavesSlots | reference/scripts/supervisor/core_ledger_completion.py:347-349 | with no id ending in `.reconcile` no verdict fills or alters a lane's own slot |
| Results.LateReportIsKept | reference/scripts/supervisor/core_ledger_completion.py:96-117 | a lane judged failed can still file its report: it is kept beside the verdict, and however often it is filed the row stays failed with the verdict as its result |
| PullRequests.OpeningOutcome | reference/scripts/supervisor/core_ledger_schema.py:1308-1351 | a file without the trigger opens exactly when its pulls are unique, and gets the trigger; one that has the trigger always opens; so an opened ledger's pulls are unique exactly when the trigger was missing before or they were; a refusal or an abort at either failpoint leaves the trigger absent |
| PullRequests.ReopeningMissesDuplicates | reference/scripts/supervisor/core_ledger_schema.py:1310-1315 | a run from a fresh file after which opening succeeds with the duplicate standing |
| PullRequests.SessionsKeepUnique | reference/scripts/supervisor/core_ledger_core.py:126-135 | a file first opened without the trigger has unique pulls whenever it has the trigger, over any number of processes that open it and then write pulls only by dispatching, whichever openings are refused or aborted, and whatever the session backfill does in between |
| PullRequests.RefusedForGood | reference/scripts/supervisor/cli.py:214-214 | a file refused for its duplicates stays refused over any mix of processes that open it through the ledger and of the session backfill, which does not; of it only conversation ids a lane lacked are ever filled in |
| PullRequests.BackfillIsIdempotent | reference/scripts/supervisor/backfill-harness-session-ids.py:66-101 | run again over the same transcripts, the session backfill changes nothing |
| PullRequests.BackfillFills | reference/scripts/supervisor/backfill-harness-session-ids.py:66-101 | filled in is exactly a claude-print lane without a conversation id whose session id is shaped like one and names exactly one transcript: it gets that id and its own repository as project directory; every other lane stays as it is |
| PullRequests.TriggerKeeps | reference/scripts/supervisor/core_ledger_schema.py:1183-1206 | a source write the trigger lets through keeps one open task per pull, upserts and changes of kind included |
| PullRequests.StepKeepsUniqueIff | reference/scripts/supervisor/core_ledger_schema.py:1226-1257 | a step breaks uniqueness exactly when it is a first assignment of a pull another open task holds |
| PullRequests.AssignEscapes | reference/scripts/supervisor/core_ledger_lifecycle.py:19-57 | a run of six operations from the empty ledger whose last assignment breaks uniqueness |
| PullRequests.RunKeepsUnique | reference/scripts/supervisor/cli_dispatch_record.py:176-250 | every run that writes pull rows only by recording dispatches keeps one open task per pull |
| Redispatch.UniqueRedispatchTaskId | reference/scripts/supervisor/cli_dispatch_record.py:53-61 | the given id when absent or not terminal, else the first free suffix, found within one more try than there are rows |
| Redispatch.SuffixInjective | reference/scripts/supervisor/cli_dispatch_record.py:58-58 | no two suffixes `-r<n>` spell the same id |
| Redispatch.HoldLane | reference/scripts/supervisor/cli_dispatch_record.py:225-227 | after an error every row is as it was but for the hold, which says which task and what went wrong |
| Redispatch.RecordDispatch | reference/scripts/supervisor/cli_dispatch_record.py:176-250 | what is recorded is the pull the call names, or else its first issue, with its url, evidence, lane and task row; a new pane's call under a new id is recorded exactly when it says enough, no delivery is in doubt in its lane and no open task of another lane holds its pull, and in no case while one does; no finished attempt's row is touched; a failure leaves exactly the hold, its note naming the attempt and the error, and the lane reads free exactly in the spent-second case |
| Ids.ClaimIdInjective | reference/scripts/supervisor/core_ledger_claims.py:125-125 | claim ids of colon-free tokens name one lane and token |
| Ids.ClaimIdCollision | reference/scripts/supervisor/core_ledger_claims.py:125-125 | and without that two lanes share one id |
| Ids.OwnerRoundTrip | reference/scripts/supervisor/core_constants.py:32-39 | the reaper reads back exactly the owner the claimer wrote, whatever the note says |
| Ids.OwnerIsNamed | reference/scripts/supervisor/core_constants.py:32-39 | and it reads an owner only from a summary that ends by naming it, one newline aside |
| Ids.TaskIdsAre | reference/scripts/supervisor/core_constants.py:18-18 | a task id is a letter or digit and at most 127 letters, digits, dots, underscores and hyphens |
| Lease.OneSupervisor | reference/scripts/supervisor/core_ledger_claims.py:396-433 | in every run of takes, releases, reaps and deaths at most one live process believes it is the supervisor, and the row says so too |
| Lease.LeaseOutlivesOthers | reference/scripts/supervisor/core_ledger_claims.py:435-470 | nothing but the holder's own release or death ends its lease |
| Lease.DeadHolderIsReplaced | reference/scripts/supervisor/core_ledger_claims.py:457-466 | after a reap another process can take the lease exactly when the reap ran on the holder's host and saw it gone |
| Lease.TokenRoundTrip | reference/scripts/supervisor/core_lane_relation.py:19-29 | the reaper reads back the process that took the lease |
| Lease.TokenIsNamed | reference/scripts/supervisor/core_lane_relation.py:19-29 | and reads a process only from that process's own token, one newline aside |
| Lease.SupervisorLease.TakeLease | reference/scripts/supervisor/core_ledger_claims.py:397-409 | leased exactly when the stored owner is the caller; a refused caller is told the owner on record |
| Lease.SupervisorLease.ReleaseLease | reference/scripts/supervisor/core_ledger_claims.py:428-433 | deletes only the caller's own lease, and says whether it did |
| Lease.SupervisorLease.ReapLease | reference/scripts/supervisor/core_ledger_claims.py:455-470 | clears the lease exactly when its owner parses, is of this host and is gone |
| Migrations.Schema.Migrate | reference/scripts/supervisor/core_ledger_schema.py:717-827 | nothing to do exactly when the table is current, or the whole rebuild, or, after an abort at any failpoint, exactly the catalogue and rows there were; without a failpoint it succeeds exactly when rebuildable |
| Migrations.Schema.CopyRows | reference/scripts/supervisor/core_ledger_schema.py:789-802 | the copy keeps every key, every old value under a surviving column, and fills the rest |
| Migrations.RebuildableIff | reference/scripts/supervisor/core_ledger_schema.py:1359-1365 | a rebuild meets no dangling reference exactly when every dependent of the table was set aside first |
| Migrations.RebuildGoesThrough | reference/scripts/supervisor/core_ledger_schema.py:752-827 | a rebuild whose set-aside objects are put back changes nothing but the table |
| Migrations.RebuiltResolves | reference/scripts/supervisor/core_ledger_schema.py:814-820 | afterwards every reference resolves again |
| Migrations.TasksRebuilt | reference/scripts/supervisor/core_ledger_schema.py:717-827 | the tasks rebuild keeps every row, has exactly the fifteen columns, restores the index and leaves the pull trigger present exactly when it was; a column the old table lacks reads as not recorded |
| Migrations.TriggerMustGoFirst | reference/scripts/supervisor/core_ledger_schema.py:692-710 | had the trigger been left, the rename would have been refused |
| Migrations.SourceTasksRebuilt | reference/scripts/supervisor/core_ledger_schema.py:889-965 | the source_tasks rebuild keeps every row, has exactly the ten columns, and leaves the pull trigger present exactly when it was |
| Migrations.TriggerGoesWithItsTable | reference/scripts/supervisor/core_ledger_schema.py:869-887 | not put back, the trigger would be gone with its table |
| Migrations.ItemsRebuilt | reference/scripts/supervisor/core_ledger_schema.py:1406-1466 | the items rebuild keeps every row, has exactly the nine columns, and leaves all six dependent views in place |
| Migrations.EveryViewMustGoFirst | reference/scripts/supervisor/core_ledger_schema.py:1359-1390 | each of the six has to be dropped first, the one that reads items only through another view included |
| Migrations.LanesRebuilt | reference/scripts/supervisor/core_ledger_schema.py:583-671 | the lanes rebuild changes nothing but the table and keeps every row; a lane older than transports reads `acp` for the copilot-acp harness and `send-keys` for any other |
| Opening.Open | reference/scripts/supervisor/core_ledger_core.py:126-133 | opening a file of any version: every row, column and object survives whatever happens; without a failpoint it is refused exactly when the trigger is missing and two open tasks share a pull; such a file never gets the trigger, at any failpoint; a failure leaves exactly the steps already committed |
| Opening.StageKeeps | reference/scripts/supervisor/core_ledger_schema.py:562-965 | the file after any number of the steps still holds everything it held, and the trigger exactly when it was there or its step was reached |
| Opening.ResumingCompletes | reference/scripts/supervisor/core_ledger_core.py:126-133 | an opening cut short after any step and taken up again ends as the uninterrupted one; a file already opened stays as it is |
| Opening.RefusalStands | reference/scripts/supervisor/core_ledger_schema.py:1310-1334 | no rebuild makes or removes a reason to refuse |
| Opening.OpensAsTheLedger | reference/scripts/supervisor/core_ledger_schema.py:1317-1328 | the file opens exactly when the ledger its rows spell does, and spells the same ledger after every step |
| Opening.FindDuplicates | reference/scripts/supervisor/core_ledger_schema.py:1317-1328 | the query answers exactly the numbers shared by two open pull tasks |
| Opening.AddPullTrigger | reference/scripts/supervisor/core_ledger_schema.py:1308-1351 | the trigger was there, or is created over unique pulls, or nothing changes |
| Opening.NewFileOpens | reference/scripts/supervisor/core_ledger_schema.py:23-166 | a newly initialized file is such a file, without the trigger, and opens |
| ShardPlan.LptBound | reference/scripts/ci/plan_shell_shards.py:48-57 | with non-negative weights no shard of the greedy plan exceeds 4/3 - 1/(3m) times the heaviest shard of any assignment of the same jobs to m shards |
| ShardPlan.BoundIsTight | reference/scripts/ci/plan_shell_shards.py:48-57 | two shards and five suites that meet the bound exactly |
| ShardPlan.TotalIsSum | reference/scripts/ci/plan_shell_shards.py:53-57 | the loads add up to the weights |
| ShardPlan.HeavyJobFinishes | reference/scripts/ci/plan_shell_shards.py:54-57 | a shard whose last job weighs more than a third of the optimum stays within the optimum |
| ShardPlan.Pack | reference/scripts/ci/plan_shell_shards.py:54-57 | the loop puts every job on the first lightest shard; each load is the sum of its shard's weights |
| ShardPlan.PlanShards | reference/scripts/ci/plan_shell_shards.py:42-66 | refused exactly without suites, shards or usable hints; neither self-check ever fails; every suite is placed exactly once; each load is the sum, over the suites its shard lists, of the number recorded for it, or where there is none of the mean of the numbers in the hints, 15 without any; no assignment of those suites beats it by more than 4/3 - 1/(3m) |
| ShardPlan.HintedWeights | reference/scripts/ci/plan_shell_shards.py:43-51 | a suite with a number weighs that number whatever else is hinted, and the weight of one without times the count of numbers is their sum |
| ShardPlan.LptForSuites | reference/scripts/ci/plan_shell_shards.py:48-57 | the bound, said of the suites in the order they came and their weights, not of the sorted queue |
| ShardPlan.MatrixKeepsAll | reference/scripts/ci/plan_shell_shards.py:65-65 | leaving out empty shards leaves out no suite |
| ShardPlan.SortedIsOrdered | reference/scripts/ci/plan_shell_shards.py:51-51 | heaviest first, of equally heavy ones the later name first |
| JsonRpc.ResponsesReachTheirCallers | reference/scripts/supervisor/acp_transport.py:129-175 | in every interleaving of callers, reader, timeouts and close no id is used twice, a caller returns only with the response sent under its own id or with the drain's error, and no response reaches two callers |
| JsonRpc.AnswersAreFinal | reference/scripts/supervisor/acp_transport.py:169-175 | a stored answer is never overwritten and a finished call stays finished |
| JsonRpc.LateResponseIsDropped | reference/scripts/supervisor/acp_transport.py:170-173 | a response to a call timed out, answered or never made changes nothing |
| JsonRpc.TimelyResponseIsTaken | reference/scripts/supervisor/acp_transport.py:170-175 | any other reaches the one caller waiting for it |
| JsonRpc.DrainWakesEveryone | reference/scripts/supervisor/acp_transport.py:152-159 | once the reader has ended a waiting caller has been woken exactly when it registered before the table was emptied, and otherwise only its timeout is open to it |
| JsonRpc.ReaderNeverStuck | reference/scripts/supervisor/acp_transport.py:141-159 | until it has ended the reader always has a step, and what it holds always exists |
| JsonRpc.RunKeeps | reference/scripts/supervisor/acp_transport.py:223-236 | the invariant behind these holds in every state of every run |
| JsonRpc.ReachedByRun | reference/scripts/supervisor/acp_transport.py:129-175 | what any sequence of enabled actions leads to is a state of a run, so all of the above holds of the object below, which carries its actions |
| AcpTransport.Transport.AllocateId | reference/scripts/supervisor/acp_transport.py:129-133 | an id never pending; the object takes the machine's call and allocation |
| AcpTransport.Transport.Register | reference/scripts/supervisor/acp_transport.py:224-227 | the entry is filed under the caller's id before anything is written; the machine's registration |
| AcpTransport.Transport.Finish | reference/scripts/supervisor/acp_transport.py:229-236 | a woken caller finds the response bearing its own id or the drain's error; one that was not takes its entry out: the machine's wake, or its timeout and give-up |
| AcpTransport.Transport.HandleResponse | reference/scripts/supervisor/acp_transport.py:169-175 | one response changes at most the one entry filed under its id, and takes it out of the table: the machine's receive, store and set |
| AcpTransport.Transport.Drain | reference/scripts/supervisor/acp_transport.py:152-159 | every entry still in the table is woken with the error, the table is empty, and the object is where the machine's reader has ended |
| AcpTransport.Transport.ReadLoop | reference/scripts/supervisor/acp_transport.py:141-159 | every call outstanding when the reader starts has been woken when it ends, by the response bearing its own id or by the error, whatever lines come and wherever the dispatch raises |
| CiGate.Evaluate | reference/scripts/supervisor/ci_gate.py:195-239 | allowed exactly when head and checks were read, every run is of the head, something was reported, every status is success, and every name's newest run is green or is a failed gate strictly older than a green newest ui-evidence |
| CiGate.LatestPerName | reference/scripts/supervisor/ci_gate.py:115-127 | the loop keeps exactly the newest run of every name, ties to the later entry |
| CiGate.GateSuperseded | reference/scripts/supervisor/ci_gate.py:130-165 | exactly the one excused failure |
| CiGate.LatestIsLastHeardOf | reference/scripts/supervisor/ci_gate.py:97-127 | the newest run of a name is the one heard of last: by when it completed, else when it started, of equals the later entry |
| CiGate.OneRunAllowed | reference/scripts/supervisor/ci_gate.py:195-239 | one run alone is allowed exactly when it is of the head, completed, and concluded success, neutral or skipped |
| CiGate.FailedGateAllowed | reference/scripts/supervisor/ci_gate.py:130-165 | a failed gate beside one ui-evidence is allowed exactly when that completed green strictly later |
| CiGate.LongFailureRefuses | reference/scripts/supervisor/ci_gate.py:97-97 | a failure that started first and ended last outweighs the success that ran within it |
| CiGate.FailingRuns | reference/scripts/supervisor/ci_gate.py:222-229 | empty exactly when every newest run passes, and lists only newest runs that do not |
| CiGate.OnlyNewestRunsMatter | reference/scripts/supervisor/ci_gate.py:48-57 | with no two runs of a name equally old, reordering runs or dropping older ones never changes the decision |
| CiGate.OrderDecidesIff | reference/scripts/supervisor/ci_gate.py:115-127 | the order of the list decides exactly when, everything else being in order, every name has an acceptable newest run and some equally new run of some name is not acceptable |
| CiGate.EveryOrderPasses | reference/scripts/supervisor/ci_gate.py:125-126 | every order passes exactly when every newest run of every name, ties included, is green or is a failed gate with an equally newest green ui-evidence strictly later |
| CiGate.SomeOrderPasses | reference/scripts/supervisor/ci_gate.py:125-126 | some order passes exactly when every name has such a newest run |
| CiGate.TieIsDecidedByOrder | reference/scripts/supervisor/ci_gate.py:125-126 | with a tie the order does decide |
| Progress.PathRebirth | src/progress/main.go:118-147 | the boundary is the parent of the most recent birth, or none when that birth is the root commit or there is none |
| Progress.CommitsForPath | src/progress/main.go:91-110 | exactly the in-window commits touching the path with no later birth of it |
| Progress.OnlyThisIncarnationCounts | src/progress/main.go:82-90 | for a path that exists, exactly the in-window commits that brought it in or changed its object since which it has existed without a break |
| Progress.RemovalClosesTheCount | src/progress/main.go:112-117 | for a path that is gone, exactly the in-window ones among its removal and the commits that brought in or changed the incarnation it ended |
| Progress.CountAt | src/progress/main.go:68-80 | the number of commits in the union over the paths |
| GithubSource.PublishThenLoad | reference/scripts/supervisor/github_source.py:206-243 | a published status is what is loaded next, when its comment is not older than the rest, exactly when no piece of evidence holds the pattern's closing text; one that does makes every later load fail |
| GithubSource.DeclaredTaskLoads | reference/scripts/supervisor/github_source.py:140-157 | a task declared by its printed marker alone loads as created |
| GithubSource.DeclarationBinds | reference/scripts/supervisor/github_source.py:140-157 | a body that declares one task loads for exactly that issue or pull request at exactly that commit |
| GithubSource.ForeignStatusStops | reference/scripts/supervisor/github_source.py:158-179 | a status published for another task or another commit is never taken for this one |
| GithubSource.ReceiptIs | reference/scripts/supervisor/github_source.py:158-179 | a status marker is read exactly when it names this task at this commit and says what could be published, and is read as just that |
| GithubSource.TaskIdNamesOne | reference/scripts/supervisor/github_source.py:61-62 | a task id names one repository, one kind and one number |
| GithubSource.UrlNamesOne | reference/scripts/supervisor/github_source.py:27-30 | and so does a canonical url |
| GithubSource.StatusesAre | reference/scripts/supervisor/github_source.py:31-32 | the seven statuses that can be published, three of them only with evidence |
| GithubSource.PublishedText | reference/scripts/supervisor/github_source.py:220-229 | the comment a status is published as: the prefix, six fields by name in sorted order, the closing text |
| GithubSource.ClosingTextStopsLoading | reference/scripts/supervisor/github_source.py:67-72 | of any such task: one publishable piece of evidence after which no load succeeds, whatever is commented later |
| GithubSource.Load | reference/scripts/supervisor/github_source.py:138-199 | of exactly the issue and commit asked for: one bound task marker, every status marker checked, the newest receipt deciding; otherwise the first check that fails |
| GithubSource.SortPicksNewest | reference/scripts/supervisor/github_source.py:180-184 | the stable sort's last receipt is the newest, of equally new ones the last |
| GithubSource.StatusMarkerClean | reference/scripts/supervisor/github_source.py:220-229 | only the evidence can spell the closing text |
| Markers.MarkerRoundTrip | reference/scripts/supervisor/github_source.py:40-77 | a marker reads back as itself exactly when its JSON does not hold the closing text; otherwise reading raises |
| Markers.MarkerAmongText | reference/scripts/supervisor/github_source.py:40-77 | under either prefix and after any text without an angle bracket, what is read is this marker and then whatever the text after it holds |
| Markers.ReadMarkers | reference/scripts/supervisor/github_source.py:65-77 | the scan computes the specified list, and its not-an-object error never occurs |
| Markers.PrintClean | reference/scripts/supervisor/github_source.py:23-25 | JSON holds the closing text exactly when one of its strings does: escaping neither makes nor hides it |
| Json.ParseInvertsPrint | reference/scripts/supervisor/github_source.py:47-47 | reading printed JSON gives back the value, escapes and surrogate pairs included |
| Json.CutShortNeverParses | reference/scripts/supervisor/github_source.py:69-73 | no proper prefix of a printed document is a document |

## Left out

- Redispatch.RecordDispatch: the printed line naming the other holder of a pull is not modelled, because the ledger never reads it back; an error's own words are a parameter.
- LedgerClass.Ledger.StoreResult: does not model a writer that links the file between the existence check and the link, because every caller holds the ledger's lock.
- Lifecycle.RunMonotone: claims are excepted, because a finished claim is revived in place and a reserved one deleted.
- DispatchProtocol.NeverTwoLiveBriefs: cancelling an open task by hand, rebinding a known lane and passing a verdict on a claim are an operator's escapes and are not among its steps; they are among the ledger's operations elsewhere.
- ShardPlan.LptBound: float rounding of weights and loads is not modelled; weights are exact reals.
- ShardPlan.Pack: the built-in sort is a function on sequences, not a loop of the planner's own.
- JsonRpc.ResponsesReachTheirCallers: an id that Python calls equal to an integer (`1.0`, `true`) is taken as that integer; the requests and notifications the peer sends, sessions and the permission policy are not modelled, because they share no state with the pending table.
- Json.ParseInvertsPrint: numbers, `true`, `false` and `null` are not read, and half a surrogate pair on its own is refused, because no status marker holds either; a marker written by hand with one reads here as invalid.
- GithubSource.Load: what the `gh` calls answer is a parameter, checked as the source checks it; a body or comment the server alters is not modelled.
- CiGate.Evaluate: names that are neither text nor null, statuses that are not objects, and the wording of the reasons are not modelled.
- Progress.CommitsForPath: merge commits are not modelled; the history is linear and the date filter judges each commit by its own date.
- Migrations.Schema.Migrate: CHECK constraints and column types are not modelled, because every old constraint is contained in the new one.
- Migrations.Schema.Rename: an index or trigger on the renamed table would follow it; the successor never has any.
- Opening.Open: the two row corrections that run beside these steps (known review tasks, items dropped on context alone) and the columns added to `prompts` are not modelled; they add no object and change only `is_review` of two known rows and the status of dropped items.
- PullRequests.BackfillIsIdempotent: the backfill's read and its update, which holds no lock, are one step; a file rewritten by hand or by another program is not modelled.
- PullRequests.SessionsKeepUnique: a process that writes pull rows by hand-registering a task and assigning it is the escape `AssignEscapes` shows, and is excluded.
- AdapterClass.TaskAdapter.AssignTask: classification of a pane's text, the prompt's wording and the transports' own protocols are parameters.
- Lane sessions, `restore_plan`, component snapshots, pull request verdicts and authorship, the prompt corpus and the backfills over external transcripts: keyed inserts and lookups beside the protocol.
- `src/estate`, `src/issuemine`, `src/notify`, the documentation linters and the shell scripts: wiring, printing, file scans and HTTP.
- SQLite, `flock`, `fsync`, tmux and SHA-256 themselves: taken as atomic steps under one lock and an arbitrary digest; Unicode case and blanks beyond ASCII are not folded.
