/**
 What each ledger operation does to the tables, stated as the state it leaves behind. A transaction
 that raises leaves the database exactly as it was, so a failed operation is just an `Err`.
 */
module LedgerSpec {
  import opened Prelude
  import opened Ids
  import opened Tables

  /* ---- lanes ---- */

  datatype LaneArgs = LaneArgs(lane: string, paneId: string, nonce: string, harness: string, repo: string,
    serverId: string, sessionId: string, command: string, transport: Option<string>,
    harnessSessionId: string, harnessProjectDir: string)

  function TransportsOf(harness: string): seq<string> {
    if harness == "codex" || harness == "copilot" then ["send-keys"]
    else if harness == "claude" then ["send-keys", "claude-print"]
    else if harness == "copilot-acp" then ["acp"]
    else if harness == "pi" then ["send-keys", "pi-rpc"]
    else []
  }

  /** The identity a registration would record, or why it is refused. */
  function IdentityOf(a: LaneArgs): Outcome<Identity> {
    var allowed := TransportsOf(a.harness);
    if allowed == [] then Err(UnsupportedHarness)
    else
      var transport := if a.transport.None? then allowed[0] else a.transport.value;
      if transport !in allowed then Err(UnsupportedTransport)
      else if "" in {a.lane, a.paneId, a.nonce, a.repo, a.serverId, a.sessionId, a.command} then Err(EmptyField)
      else Ok(Identity(a.paneId, a.nonce, a.harness, a.repo, a.serverId, a.sessionId, a.command, transport))
  }

  /** A known lane whose recorded identity differs: a new pane incarnation. */
  predicate Rebinds(db: Db, lane: string, identity: Identity) {
    lane in db.lanes && db.lanes[lane].identity != identity
  }

  /** An unresolved session id never erases a recorded one, except across incarnations. */
  function Carry(given: string, db: Db, lane: string, identity: Identity, recorded: string): string {
    if given != "" then given else if lane !in db.lanes || Rebinds(db, lane, identity) then "" else recorded
  }

  function LaneRowFor(db: Db, a: LaneArgs, identity: Identity, now: nat): LaneRow {
    var recorded := if a.lane in db.lanes then db.lanes[a.lane] else LaneRow(identity, "", "", now);
    LaneRow(identity,
            Carry(a.harnessSessionId, db, a.lane, identity, recorded.harnessSessionId),
            Carry(a.harnessProjectDir, db, a.lane, identity, recorded.harnessProjectDir),
            now)
  }

  function CancelledRow(row: TaskRow, now: nat, path: Option<string>, sha: Option<string>): TaskRow {
    row.(status := Cancelled, resultPath := path, resultSha := sha, updatedAt := now, completedAt := Some(now))
  }

  /** `_cancel_task_row`: the task and, when it has one, its source. */
  function Cancel(db: Db, id: string, now: nat, path: Option<string>, sha: Option<string>): Db
    requires id in db.tasks
  {
    db.(tasks := db.tasks[id := CancelledRow(db.tasks[id], now, path, sha)],
        sources := if id in db.sources then db.sources[id := db.sources[id].(status := Cancelled, updatedAt := now)] else db.sources)
  }

  /** A new incarnation cancels what the old one left outstanding, unless its delivery is ambiguous. */
  ghost function FreeForRebind(db: Db, lane: string, identity: Identity, now: nat): Db {
    match Occupant(db, lane)
    case Some(id) => if Rebinds(db, lane, identity) && !db.tasks[id].status.DeliveryPending? then Cancel(db, id, now, None, None) else db
    case None => db
  }

  ghost function RegisterLane(db: Db, a: LaneArgs, now: nat): Outcome<Db> {
    match IdentityOf(a)
    case Err(e) => Err(e)
    case Ok(identity) => Ok(FreeForRebind(db, a.lane, identity, now).(lanes := db.lanes[a.lane := LaneRowFor(db, a, identity, now)]))
  }

  /* ---- claims and holds ---- */

  datatype ClaimReply = Unknown | Claimed | Occupied(holder: Option<string>)

  /** A terminal row under the same id is reused in place; otherwise the claim is a new row. */
  function ReservedRow(db: Db, lane: string, token: string, summary: string, now: nat): TaskRow
    requires lane in db.lanes
  {
    var id, nonce := ClaimId(lane, token), db.lanes[lane].identity.nonce;
    if id in db.tasks then
      db.tasks[id].(status := Created, summary := summary, paneNonce := nonce, createdAt := now, updatedAt := now,
        resultPath := None, resultSha := None, deliveryAttemptedAt := None, deliveredAt := None, acceptedAt := None, completedAt := None)
    else NewTask(lane, nonce, summary, now, "", "")
  }

  ghost function ClaimLane(db: Db, lane: string, token: string, summary: string, now: nat): (Db, ClaimReply) {
    if lane !in db.lanes then (db, Unknown)
    else match Occupant(db, lane)
      case Some(id) => (db, if id == ClaimId(lane, token) then Claimed else Occupied(Some(id)))
      case None => (PutTask(db, ClaimId(lane, token), ReservedRow(db, lane, token, summary, now)), Claimed)
  }

  datatype CommitReply = Committed | Missing | Refused(status: Status)

  function CommitClaim(db: Db, lane: string, token: string, now: nat): (Db, CommitReply) {
    var id := ClaimId(lane, token);
    if id !in db.tasks || db.tasks[id].lane != lane then (db, Missing)
    else match db.tasks[id].status
      case Delivered => (db, Committed)
      case Created => (PutTask(db, id, db.tasks[id].(status := Delivered, updatedAt := now, deliveredAt := Some(now))), Committed)
      case s => (db, Refused(s))
  }

  predicate Referenced(db: Db, id: string) { exists key | key in db.events :: db.events[key].taskId == id }

  /** The row goes only while it is this claim and still only reserved; an event on it blocks the delete. */
  function ReleaseClaim(db: Db, lane: string, token: string): Outcome<(Db, bool)> {
    var id := ClaimId(lane, token);
    if id !in db.tasks || db.tasks[id].lane != lane || db.tasks[id].status != Created then Ok((db, false))
    else if Referenced(db, id) then Err(ForeignKey)
    else Ok((db.(tasks := db.tasks - {id}), true))
  }

  function Lower(c: char): char { if 'A' <= c <= 'Z' then c - 'A' + 'a' else c }

  /** `id LIKE 'ledger-claim:%'`, which SQLite folds over ASCII case. */
  predicate LikeClaim(id: string) {
    |id| >= |CLAIM_PREFIX| && forall i | 0 <= i < |CLAIM_PREFIX| :: Lower(id[i]) == CLAIM_PREFIX[i]
  }

  /** The summary names an owner on this host, and that process is provably gone. */
  predicate OwnerGone(summary: string, host: string, alive: nat -> bool) {
    match ParseOwner(summary)
    case Some(o) => o.host == host && !alive(o.pid)
    case None => false
  }

  /** Reserved claims whose recorded owner is gone. */
  predicate Stale(row: TaskRow, id: string, host: string, alive: nat -> bool) {
    row.status.Created? && LikeClaim(id) && OwnerGone(row.summary, host, alive)
  }

  function StaleClaims(db: Db, host: string, alive: nat -> bool): set<string> {
    set id | id in db.tasks && Stale(db.tasks[id], id, host, alive)
  }

  function ReapClaims(db: Db, host: string, alive: nat -> bool): Outcome<Db> {
    var gone := StaleClaims(db, host, alive);
    if exists id | id in gone :: Referenced(db, id) then Err(ForeignKey) else Ok(db.(tasks := db.tasks - gone))
  }

  ghost function MarkLaneHeld(db: Db, lane: string, note: string, now: nat): Db {
    if lane !in db.lanes || Occupant(db, lane).Some? || HoldId(lane, now) in db.tasks then db
    else PutTask(db, HoldId(lane, now), NewTask(lane, db.lanes[lane].identity.nonce, HeldSummary(note), now, "", ""))
  }

  function HeldSummary(note: string): string { "ledger record failed: " + note }

  /* ---- sources ---- */

  datatype SourceArgs = SourceArgs(taskId: string, kind: string, url: string, ref: string, summary: string,
    state: string, status: Status, evidence: seq<string>, marker: Option<string>, isReview: Option<bool>)

  predicate SourceArgsOk(a: SourceArgs) {
    && a.kind in {"issue", "pull"}
    && !a.status.DeliveryPending?
    && "" !in {a.url, a.ref, a.summary, a.state}
    && "" !in a.evidence
    && (Terminal(a.status) ==> a.evidence != [])
  }

  /** The `one_open_pull_per_source_ref` trigger: another task for the same pull is still open. */
  predicate PullTaken(db: Db, id: string, kind: string, ref: string) {
    kind == "pull" && exists other | other in db.sources ::
      other != id && db.sources[other].kind == "pull" && db.sources[other].ref == ref && Open(db, other)
  }

  function SourceRowOf(a: SourceArgs, now: nat): SourceRow {
    SourceRow(a.kind, a.url, a.ref, a.summary, a.state, a.status, a.evidence, a.marker, now, a.isReview)
  }

  function ReconstructTask(db: Db, a: SourceArgs, now: nat): Outcome<Db> {
    if !ValidTaskId(a.taskId) then Err(InvalidTaskId)
    else if !SourceArgsOk(a) then Err(InvalidSource)
    else if PullTaken(db, a.taskId, a.kind, a.ref) then Err(OpenPullTaken)
    else Ok(db.(sources := db.sources[a.taskId := SourceRowOf(a, now)]))
  }

  function UpdateSource(db: Db, id: string, state: Option<string>, status: Option<Status>, now: nat): Outcome<Db> {
    if state.None? && status.None? then Err(BadArguments)
    else if status == Some(DeliveryPending) || state == Some("") then Err(InvalidSource)
    else if id !in db.sources then Err(UnknownSource)
    else
      var row := db.sources[id];
      var next := row.(state := if state.Some? then state.value else row.state, status := if status.Some? then status.value else row.status);
      Ok(if next == row then db else db.(sources := db.sources[id := next.(updatedAt := now)]))
  }

  /* ---- the task lifecycle ---- */

  predicate Blank(s: string) { forall i | 0 <= i < |s| :: IsSpace(s[i]) }

  function Upper(c: char): char { if 'a' <= c <= 'z' then c - 'a' + 'A' else c }

  predicate SaysOpen(state: string) {
    |state| == 4 && Upper(state[0]) == 'O' && Upper(state[1]) == 'P' && Upper(state[2]) == 'E' && Upper(state[3]) == 'N'
  }

  datatype AssignArgs = AssignArgs(taskId: string, lane: string, nonce: string, summary: string, worktree: string)

  /** `_verify_lane_nonce`. */
  function NonceError(db: Db, lane: string, nonce: string): Option<Error> {
    if lane !in db.lanes then Some(UnknownLane)
    else if db.lanes[lane].identity.nonce != nonce then Some(StaleNonce)
    else None
  }

  ghost function Assign(db: Db, a: AssignArgs, now: nat): Outcome<Db> {
    if !ValidTaskId(a.taskId) then Err(InvalidTaskId)
    else if Blank(a.summary) then Err(EmptyField)
    else if NonceError(db, a.lane, a.nonce).Some? then Err(NonceError(db, a.lane, a.nonce).value)
    else if a.taskId !in db.sources then Err(UnknownSource)
    else if !SaysOpen(db.sources[a.taskId].state) || !db.sources[a.taskId].status.Created? then Err(SourceNotOpen)
    else if a.taskId in db.tasks then
      var row := db.tasks[a.taskId];
      if row.lane == a.lane && row.paneNonce == a.nonce && row.summary == a.summary then Ok(db) else Err(TaskIdTaken)
    else if Occupant(db, a.lane).Some? then Err(LaneBusy)
    else Ok(PutTask(db, a.taskId, NewTask(a.lane, a.nonce, a.summary, now, a.worktree, db.lanes[a.lane].identity.paneId)))
  }

  /** A status change and the timestamp column that goes with it. */
  function Advance(row: TaskRow, target: Status, now: nat): TaskRow {
    var r := row.(status := target, updatedAt := now);
    match target
    case DeliveryPending => r.(deliveryAttemptedAt := Some(now))
    case Delivered => r.(deliveredAt := Some(now))
    case Accepted => r.(acceptedAt := Some(now))
    case _ => r.(completedAt := Some(now))
  }

  /** The three steps a lane's current incarnation may take: attempt, deliver, accept. */
  datatype Move = Attempt | Deliver | Accept

  function From(m: Move): Status { match m case Attempt => Created case Deliver => DeliveryPending case Accept => Delivered }

  function Target(m: Move): Status { match m case Attempt => DeliveryPending case Deliver => Delivered case Accept => Accepted }

  function Transition(db: Db, id: string, nonce: string, m: Move, now: nat): Outcome<Db> {
    if id !in db.tasks then Err(UnknownTask)
    else
      var row := db.tasks[id];
      if NonceError(db, row.lane, nonce).Some? then Err(NonceError(db, row.lane, nonce).value)
      else if row.paneNonce != nonce then Err(StaleNonce)
      else if row.status == Target(m) then Ok(db)
      else if row.status != From(m) then Err(WrongStatus)
      else Ok(PutTask(db, id, Advance(row, Target(m), now)))
  }

  /** `reconcile_delivery`: authenticated by the task's own nonce, whatever the lane is now. */
  function Reconcile(db: Db, id: string, nonce: string, delivered: bool, now: nat): Outcome<Db> {
    var target := if delivered then Delivered else Failed;
    if id !in db.tasks then Err(UnknownTask)
    else
      var row := db.tasks[id];
      if row.paneNonce != nonce then Err(StaleNonce)
      else if row.status == target then Ok(db)
      else if row.status != DeliveryPending then Err(WrongStatus)
      else Ok(PutTask(db, id, Advance(row, target, now)))
  }

  function BackfillWorktree(db: Db, id: string, path: string, now: nat): Outcome<Db> {
    if path == "" then Err(BadArguments)
    else if id !in db.tasks then Err(UnknownTask)
    else if !db.tasks[id].status.Complete? || db.tasks[id].worktreePath != "" then Err(WrongStatus)
    else Ok(PutTask(db, id, db.tasks[id].(worktreePath := path, updatedAt := now)))
  }

  /* ---- record_dispatch ---- */

  /** `lane.transport` is what `_register_lane_tx` is given: the method never forwards its own argument. */
  datatype DispatchArgs = DispatchArgs(laneArgs: LaneArgs, source: SourceArgs, worktree: string, accepted: bool)

  predicate DispatchArgsOk(d: DispatchArgs) {
    && d.laneArgs.transport.None? && IdentityOf(d.laneArgs).Ok?
    && d.source.status.Created? && ValidTaskId(d.source.taskId) && SourceArgsOk(d.source)
    && SaysOpen(d.source.state) && !Blank(d.source.summary)
  }

  /** The row a retry under the same identity finds already assigned and not yet confirmed. */
  predicate Resumes(db: Db, d: DispatchArgs) {
    && d.source.taskId in db.tasks
    && var row := db.tasks[d.source.taskId];
    && row.lane == d.laneArgs.lane && row.paneNonce == d.laneArgs.nonce && row.summary == d.source.summary
    && (row.status.Created? || row.status.DeliveryPending?)
  }

  /**
   When recording a dispatch succeeds: the lane can be freed (or is this very task's), no other open
   task holds the pull, and the id is new or resumes an unconfirmed assignment.
   */
  ghost predicate DispatchOk(db: Db, d: DispatchArgs, now: nat) {
    && DispatchArgsOk(d)
    && var freed := FreeForRebind(db, d.laneArgs.lane, IdentityOf(d.laneArgs).value, now);
    && !PullTaken(freed, d.source.taskId, d.source.kind, d.source.ref)
    && (if d.source.taskId in db.tasks then Resumes(freed, d) else Occupant(freed, d.laneArgs.lane).None?)
  }

  /** The new task's row: assigned, attempted and delivered in one instant. */
  function DeliveredRow(db: Db, d: DispatchArgs, now: nat): TaskRow {
    var id := d.source.taskId;
    var row := if id in db.tasks then db.tasks[id] else NewTask(d.laneArgs.lane, d.laneArgs.nonce, d.source.summary, now, d.worktree, d.laneArgs.paneId);
    row.(status := Delivered, updatedAt := now, deliveredAt := Some(now),
         deliveryAttemptedAt := if row.status.Created? then Some(now) else row.deliveryAttemptedAt,
         acceptedAt := if d.accepted && row.acceptedAt.None? then Some(now) else row.acceptedAt)
  }

  ghost function Dispatched(db: Db, d: DispatchArgs, now: nat): Db
    requires DispatchOk(db, d, now)
  {
    var identity := IdentityOf(d.laneArgs).value;
    var freed := FreeForRebind(db, d.laneArgs.lane, identity, now);
    Db(db.lanes[d.laneArgs.lane := LaneRowFor(db, d.laneArgs, identity, now)],
       freed.tasks[d.source.taskId := DeliveredRow(freed, d, now)],
       freed.sources[d.source.taskId := SourceRowOf(d.source, now)],
       db.events)
  }

  ghost function RecordDispatch(db: Db, d: DispatchArgs, now: nat): Db {
    if DispatchOk(db, d, now) then Dispatched(db, d, now) else db
  }

  /* ---- results and verdicts ---- */

  const MAX_RESULT_BYTES := 65536

  predicate IsSpaceByte(b: byte) { b == 32 || 9 <= b <= 13 }

  predicate ResultAcceptable(result: Bytes) {
    |result| <= MAX_RESULT_BYTES && exists i | 0 <= i < |result| :: !IsSpaceByte(result[i])
  }

  function ResultPath(id: string, suffix: string): string { id + suffix + ".md" }

  /** `_write_result`: the path is written once; an orphan is adopted, a recorded result defended. */
  function WriteResult(files: map<string, Bytes>, path: string, result: Bytes, known: Option<string>, digest: Digest)
    : Outcome<(map<string, Bytes>, string)>
  {
    if !ResultAcceptable(result) then Err(BadResult)
    else if path !in files then Ok((files[path := result], digest(result)))
    else if digest(files[path]) == digest(result) || known.None? then Ok((files, digest(files[path])))
    else Err(ResultConflict)
  }

  /** `complete` and the three verdicts a reconciler may pass on a lane's behalf. */
  datatype Verdict = Completed | Unaccepted | StaleDelivery | StaleAcceptance

  function SuffixOf(v: Verdict): string { if v.Completed? then "" else ".reconcile" }

  function FinalStatus(v: Verdict): Status { if v.Completed? then Complete else Failed }

  predicate Eligible(v: Verdict, row: TaskRow) {
    match v
    case Completed => !Terminal(row.status)
    case Unaccepted => row.status.Delivered? && row.acceptedAt.None?
    case StaleDelivery => row.status.Delivered?
    case StaleAcceptance => row.status.Accepted?
  }

  datatype Failpoint = NoFailpoint | AfterResult | AfterTask | AfterEvent

  datatype VerdictArgs = VerdictArgs(verdict: Verdict, taskId: string, result: Bytes, nonce: string, allowClaim: bool)

  /** `_require_task_id`: with `allow_claim`, a claim whose token is a valid id passes too. */
  predicate RequireTaskId(id: string, allowClaim: bool) {
    ValidTaskId(id) || (allowClaim && IsClaim(id) && ValidTaskId(id[LastColon(id) + 1..]))
  }

  function AddEvent(events: map<string, EventRow>, key: string, e: EventRow): map<string, EventRow> {
    if key in events then events else events[key := e]
  }

  function Decided(db: Db, v: Verdict, id: string, path: string, sha: string, now: nat): Db
    requires id in db.tasks
  {
    db.(tasks := db.tasks[id := db.tasks[id].(status := FinalStatus(v), resultPath := Some(path), resultSha := Some(sha),
                                              updatedAt := now, completedAt := Some(now))],
        events := AddEvent(db.events, CompletionKey(id), EventRow(Completion, id, Pending, Some(path), now, None, None, None)))
  }

  /** The file is written before the transaction, so a failure after it leaves the file and nothing else. */
  function Decide(w: World, a: VerdictArgs, fail: Failpoint, now: nat, digest: Digest): (World, Outcome<()>) {
    var path := ResultPath(a.taskId, SuffixOf(a.verdict));
    if !RequireTaskId(a.taskId, a.allowClaim) then (w, Err(InvalidTaskId))
    else if a.taskId !in w.db.tasks then (w, Err(UnknownTask))
    else
      var row := w.db.tasks[a.taskId];
      if row.paneNonce != a.nonce then (w, Err(StaleNonce))
      else match WriteResult(w.files, path, a.result, row.resultSha, digest)
        case Err(e) => (w, Err(e))
        case Ok((files, sha)) =>
          if fail.AfterResult? then (World(w.db, files), Err(Injected))
          else if row.status == FinalStatus(a.verdict) then
            (World(w.db, files), if row.resultSha == Some(sha) then Ok(()) else Err(ResultConflict))
          else if !Eligible(a.verdict, row) then (World(w.db, files), Err(WrongStatus))
          else if !fail.NoFailpoint? then (World(w.db, files), Err(Injected))
          else (World(Decided(w.db, a.verdict, a.taskId, path, sha, now), files), Ok(()))
  }

  /** `cancel_open_task`, which insists the caller say whether there is a result. */
  ghost function CancelOpenTask(w: World, lane: string, result: Option<Bytes>, abandoned: bool, now: nat, digest: Digest): Outcome<World> {
    if abandoned == result.Some? then Err(BadArguments)
    else if lane !in w.db.lanes then Err(UnknownLane)
    else match Occupant(w.db, lane)
      case None => Ok(w)
      case Some(id) =>
        if result.None? then Ok(w.(db := Cancel(w.db, id, now, None, None)))
        else match WriteResult(w.files, ResultPath(id, ""), result.value, w.db.tasks[id].resultSha, digest)
          case Err(e) => Err(e)
          case Ok((files, sha)) => Ok(World(Cancel(w.db, id, now, Some(ResultPath(id, "")), Some(sha)), files))
  }

  /* ---- events ---- */

  function AttentionKey(id: string, reason: string): string {
    if reason == "idle" then "attention:" + id else "attention:" + id + ":" + reason
  }

  ghost function ObserveAttention(db: Db, lane: string, nonce: string, reason: string, now: nat): Outcome<Db> {
    if NonceError(db, lane, nonce).Some? then Err(NonceError(db, lane, nonce).value)
    else match Occupant(db, lane)
      case None => Ok(db)
      case Some(id) =>
        var s := db.tasks[id].status;
        if s.Delivered? || s.Accepted? || s.Running? then
          Ok(db.(events := AddEvent(db.events, AttentionKey(id, reason), EventRow(Attention, id, Pending, None, now, None, None, None))))
        else Ok(db)
  }

  function MarkNotified(db: Db, keys: seq<string>, retryAfter: int, now: nat): Outcome<Db> {
    if exists k | k in keys :: k !in db.events then Err(UnknownEvent)
    else Ok(db.(events := map k | k in db.events :: if k in keys then Notify(db.events[k], retryAfter, now) else db.events[k]))
  }

  function Notify(e: EventRow, retryAfter: int, now: nat): EventRow {
    if e.status.Acked? then e else e.(status := Notified, notifiedAt := Some(now), retryAt := Some(now + retryAfter))
  }

  /** An attention may be acknowledged only once its task has been disposed of. */
  predicate Undisposed(db: Db, key: string) {
    key in db.events && db.events[key].kind.Attention? && Open(db, db.events[key].taskId)
  }

  function AckOne(e: EventRow, now: nat): EventRow { e.(status := Acked, ackedAt := Some(now), retryAt := None) }

  function AckEvents(db: Db, keys: seq<string>, now: nat): Outcome<Db> {
    if exists k | k in keys :: k !in db.events || Undisposed(db, k) then Err(UnknownEvent)
    else Ok(db.(events := map k | k in db.events :: if k in keys then AckOne(db.events[k], now) else db.events[k]))
  }

  /** `events_due`. */
  predicate Due(e: EventRow, now: nat) {
    e.status.Pending? || (e.status.Notified? && e.retryAt.Some? && e.retryAt.value <= now)
  }

  function EventsDue(db: Db, now: nat): set<string> {
    set k | k in db.events && Due(db.events[k], now)
  }

  /* ---- every operation, as one step ---- */

  datatype Op =
    | OpRegister(laneArgs: LaneArgs)
    | OpClaim(lane: string, token: string, summary: string)
    | OpCommit(lane: string, token: string)
    | OpRelease(lane: string, token: string)
    | OpReap(host: string, alive: nat -> bool)
    | OpHold(lane: string, note: string)
    | OpReconstruct(source: SourceArgs)
    | OpUpdateSource(id: string, state: Option<string>, status: Option<Status>)
    | OpAssign(assign: AssignArgs)
    | OpTransition(id: string, nonce: string, move: Move)
    | OpReconcile(id: string, nonce: string, delivered: bool)
    | OpBackfill(id: string, path: string)
    | OpDispatch(dispatch: DispatchArgs)
    | OpDecide(verdict: VerdictArgs, fail: Failpoint)
    | OpCancel(lane: string, result: Option<Bytes>, abandoned: bool)
    | OpObserve(lane: string, nonce: string, reason: string)
    | OpNotify(keys: seq<string>, retryAfter: int)
    | OpAck(keys: seq<string>)

  function Commit(w: World, r: Outcome<Db>): World { if r.Ok? then w.(db := r.value) else w }

  ghost function Apply(w: World, op: Op, now: nat, digest: Digest): World {
    match op
    case OpRegister(a) => Commit(w, RegisterLane(w.db, a, now))
    case OpClaim(lane, token, summary) => w.(db := ClaimLane(w.db, lane, token, summary, now).0)
    case OpCommit(lane, token) => w.(db := CommitClaim(w.db, lane, token, now).0)
    case OpRelease(lane, token) =>
      var r := ReleaseClaim(w.db, lane, token);
      if r.Ok? then w.(db := r.value.0) else w
    case OpReap(host, alive) => Commit(w, ReapClaims(w.db, host, alive))
    case OpHold(lane, note) => w.(db := MarkLaneHeld(w.db, lane, note, now))
    case OpReconstruct(a) => Commit(w, ReconstructTask(w.db, a, now))
    case OpUpdateSource(id, state, status) => Commit(w, UpdateSource(w.db, id, state, status, now))
    case OpAssign(a) => Commit(w, Assign(w.db, a, now))
    case OpTransition(id, nonce, m) => Commit(w, Transition(w.db, id, nonce, m, now))
    case OpReconcile(id, nonce, delivered) => Commit(w, Reconcile(w.db, id, nonce, delivered, now))
    case OpBackfill(id, path) => Commit(w, BackfillWorktree(w.db, id, path, now))
    case OpDispatch(d) => w.(db := RecordDispatch(w.db, d, now))
    case OpDecide(a, fail) => Decide(w, a, fail, now, digest).0
    case OpCancel(lane, result, abandoned) =>
      var r := CancelOpenTask(w, lane, result, abandoned, now, digest);
      if r.Ok? then r.value else w
    case OpObserve(lane, nonce, reason) => Commit(w, ObserveAttention(w.db, lane, nonce, reason, now))
    case OpNotify(keys, retryAfter) => Commit(w, MarkNotified(w.db, keys, retryAfter, now))
    case OpAck(keys) => Commit(w, AckEvents(w.db, keys, now))
  }

  /** The one thing callers must keep to: claim tokens hold no colon. */
  predicate Legal(op: Op) { op.OpClaim? ==> ColonFree(op.token) }

  ghost function Run(w: World, ops: seq<(Op, nat)>, digest: Digest): World {
    if ops == [] then w else Apply(Run(w, ops[..|ops| - 1], digest), ops[|ops| - 1].0, ops[|ops| - 1].1, digest)
  }

  predicate AllLegal(ops: seq<(Op, nat)>) { forall i | 0 <= i < |ops| :: Legal(ops[i].0) }
}
