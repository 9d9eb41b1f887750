/**
 The ledger's tables as maps, and the constraints SQLite enforces on them.

 `Db` is what one transaction sees; `World` adds the results directory, which a rollback never touches.
 The SHA-256 of a result is an arbitrary function `digest`: nothing below needs it to be injective.
 */
module Tables {
  import opened Prelude
  import opened Ids

  datatype Status = Created | DeliveryPending | Delivered | Accepted | Running | Complete | Failed | Cancelled

  predicate Terminal(s: Status) { s.Complete? || s.Failed? || s.Cancelled? }

  /** The eight columns whose change means a new pane incarnation. */
  datatype Identity = Identity(paneId: string, nonce: string, harness: string, repo: string, serverId: string,
    sessionId: string, command: string, transport: string)

  datatype LaneRow = LaneRow(identity: Identity, harnessSessionId: string, harnessProjectDir: string, updatedAt: nat)

  datatype TaskRow = TaskRow(lane: string, paneNonce: string, summary: string, status: Status,
    resultPath: Option<string>, resultSha: Option<string>, createdAt: nat, updatedAt: nat,
    deliveryAttemptedAt: Option<nat>, deliveredAt: Option<nat>, acceptedAt: Option<nat>, completedAt: Option<nat>,
    worktreePath: string, paneId: string)

  datatype SourceRow = SourceRow(kind: string, url: string, ref: string, summary: string, state: string,
    status: Status, evidence: seq<string>, marker: Option<string>, updatedAt: nat, isReview: Option<bool>)

  datatype EventKind = Completion | Attention

  datatype EventStatus = Pending | Notified | Acked

  datatype EventRow = EventRow(kind: EventKind, taskId: string, status: EventStatus, payloadPath: Option<string>,
    createdAt: nat, notifiedAt: Option<nat>, retryAt: Option<int>, ackedAt: Option<nat>)

  datatype Db = Db(lanes: map<string, LaneRow>, tasks: map<string, TaskRow>, sources: map<string, SourceRow>,
    events: map<string, EventRow>)

  newtype byte = x: int | 0 <= x < 256

  type Bytes = seq<byte>

  type Digest = Bytes -> string

  datatype World = World(db: Db, files: map<string, Bytes>)

  const EMPTY := World(Db(map[], map[], map[], map[]), map[])

  datatype Error = UnsupportedHarness | UnsupportedTransport | EmptyField | UnknownLane | UnknownTask | UnknownEvent
    | UnknownSource | InvalidTaskId | InvalidSource | StaleNonce | WrongStatus | SourceNotOpen | TaskIdTaken | LaneBusy
    | PrimaryKey | ForeignKey | OpenPullTaken | BadResult | ResultConflict | BadArguments | Injected

  type Outcome<T> = Result<T, Error>

  /* ---- open tasks ---- */

  predicate Open(db: Db, id: string) { id in db.tasks && !Terminal(db.tasks[id].status) }

  predicate OpenIn(db: Db, id: string, lane: string) { Open(db, id) && db.tasks[id].lane == lane }

  /** The open task SQLite's `fetchone` returns for a lane; unique once the index holds. */
  ghost function Occupant(db: Db, lane: string): (r: Option<string>)
    ensures r.Some? ==> OpenIn(db, r.value, lane)
    ensures r.None? ==> forall id :: !OpenIn(db, id, lane)
  {
    if exists id :: OpenIn(db, id, lane) then
      var id :| OpenIn(db, id, lane);
      Some(id)
    else None
  }

  /** `lane_available`: None for an unknown lane, otherwise whether nothing outstanding owns it. */
  ghost function LaneAvailable(db: Db, lane: string): Option<bool> {
    if lane !in db.lanes then None else Some(Occupant(db, lane).None?)
  }

  function NewTask(lane: string, nonce: string, summary: string, now: nat, worktree: string, paneId: string): TaskRow {
    TaskRow(lane, nonce, summary, Created, None, None, now, now, None, None, None, None, worktree, paneId)
  }

  function PutTask(db: Db, id: string, row: TaskRow): Db { db.(tasks := db.tasks[id := row]) }

  /* ---- the invariant of the tables ---- */

  /** `one_open_task_per_lane`. */
  ghost predicate OneOpenPerLane(db: Db) {
    forall a, b, lane :: OpenIn(db, a, lane) && OpenIn(db, b, lane) ==> a == b
  }

  /** One row's own constraints: a registered lane, an id that names it, no result before the end. */
  predicate RowOk(db: Db, id: string) {
    id in db.tasks ==>
      var row := db.tasks[id];
      && row.lane in db.lanes
      && IdOk(id, row.lane)
      && (!Terminal(row.status) ==> row.resultSha.None?)
      && (row.status.Complete? ==> CompletionKey(id) in db.events)
  }

  function CompletionKey(id: string): string { "completion:" + id }

  /** A recorded hash is the hash of a file that exists. */
  predicate ResultOk(w: World, id: string, digest: Digest) {
    id in w.db.tasks && w.db.tasks[id].resultSha.Some? ==>
      var row := w.db.tasks[id];
      row.resultPath.Some? && row.resultPath.value in w.files && digest(w.files[row.resultPath.value]) == row.resultSha.value
  }

  /** One event's own constraints: its task exists, its clocks agree with its status, and an acked attention means disposed. */
  predicate EventOk(db: Db, key: string) {
    key in db.events ==>
      var e := db.events[key];
      && e.taskId in db.tasks
      && (e.status.Pending? ==> e.notifiedAt.None?)
      && (e.status.Notified? ==> e.notifiedAt.Some? && e.retryAt.Some?)
      && (e.status.Acked? ==> e.retryAt.None? && e.ackedAt.Some?)
      && (e.kind.Attention? && e.status.Acked? && !IsClaim(e.taskId) ==> Terminal(db.tasks[e.taskId].status))
  }

  ghost predicate DbOk(db: Db) {
    && OneOpenPerLane(db)
    && (forall id :: RowOk(db, id))
    && (forall key :: EventOk(db, key))
    && (forall id :: id in db.sources ==> ValidTaskId(id))
  }

  ghost predicate Inv(w: World, digest: Digest) {
    DbOk(w.db) && forall id :: ResultOk(w, id, digest)
  }

  /** Under the index, the occupant is whichever open task one can name. */
  lemma OccupantIs(db: Db, lane: string, id: string)
    requires OneOpenPerLane(db) && OpenIn(db, id, lane)
    ensures Occupant(db, lane) == Some(id)
  {
  }
}
