/**
 What a run can never take back: a task's own facts, how far it has come, its final verdict, and the
 events raised about it.
 */
module Lifecycle {
  import opened Prelude
  import opened Ids
  import opened Tables
  import opened LedgerSpec
  import opened LedgerInvariants

  function Rank(s: Status): nat {
    match s
    case Created => 0
    case DeliveryPending => 1
    case Delivered => 2
    case Accepted => 3
    case Running => 4
    case _ => 5
  }

  /** One row's later form: same assignment, no step back, and nothing but the worktree after the end. */
  predicate Evolves(r: TaskRow, r': TaskRow) {
    && r'.lane == r.lane && r'.paneNonce == r.paneNonce && r'.paneId == r.paneId
    && r'.summary == r.summary && r'.createdAt == r.createdAt
    && (r'.status == r.status || Rank(r.status) < Rank(r'.status))
    && (Terminal(r.status) ==> r'.status == r.status && r'.resultPath == r.resultPath && r'.resultSha == r.resultSha && r'.completedAt == r.completedAt)
    && (r.worktreePath != "" ==> r'.worktreePath == r.worktreePath)
    && (r'.worktreePath != r.worktreePath ==> r'.status.Complete?)
  }

  predicate TaskMonotone(db: Db, db': Db, id: string) {
    id in db.tasks && !IsClaim(id) ==> id in db'.tasks && Evolves(db.tasks[id], db'.tasks[id])
  }

  /** An event is never dropped, never changes what it says, and an acknowledgement is for good. */
  predicate EventMonotone(db: Db, db': Db, key: string) {
    key in db.events ==>
      && key in db'.events
      && var e, e' := db.events[key], db'.events[key];
      && e'.kind == e.kind && e'.taskId == e.taskId && e'.payloadPath == e.payloadPath && e'.createdAt == e.createdAt
      && (e.status.Acked? ==> e'.status.Acked?)
      && (e.status.Notified? ==> !e'.status.Pending?)
  }

  /** Reaping and releasing only ever delete claims: nothing else is spelled like one. */
  lemma LikeClaimIsClaim(id: string, lane: string)
    requires LikeClaim(id) && IdOk(id, lane)
    ensures IsClaim(id)
  {
    assert CLAIM_PREFIX[12] == ':' && CLAIM_PREFIX[7] == 'c';
    assert id[12] == ':' && Lower(id[7]) == 'c';
    NamesPrefix(id, lane);
    assert IsHold(id) ==> id[7] == HOLD_PREFIX[7];
  }

  lemma ReapMonotone(db: Db, host: string, alive: nat -> bool, id: string)
    requires DbOk(db)
    ensures ReapClaims(db, host, alive).Ok? ==> TaskMonotone(db, ReapClaims(db, host, alive).value, id)
  {
    assert RowOk(db, id);
    if id in db.tasks && LikeClaim(id) { LikeClaimIsClaim(id, db.tasks[id].lane); }
  }

  lemma DispatchMonotone(db: Db, d: DispatchArgs, now: nat, id: string)
    ensures TaskMonotone(db, RecordDispatch(db, d, now), id)
  {
    if DispatchOk(db, d, now) {
      var freed := FreeForRebind(db, d.laneArgs.lane, IdentityOf(d.laneArgs).value, now);
      assert TaskMonotone(db, freed, id);
    }
  }

  lemma ClaimIdIsClaim(lane: string, token: string)
    ensures IsClaim(ClaimId(lane, token))
  {
  }

  lemma RegisterMonotone(db: Db, a: LaneArgs, now: nat, id: string)
    ensures RegisterLane(db, a, now).Ok? ==> TaskMonotone(db, RegisterLane(db, a, now).value, id)
  {
  }

  lemma HoldMonotone(db: Db, lane: string, note: string, now: nat, id: string)
    ensures TaskMonotone(db, MarkLaneHeld(db, lane, note, now), id)
  {
  }

  lemma ClaimingMonotone(db: Db, lane: string, token: string, summary: string, now: nat, id: string)
    ensures TaskMonotone(db, ClaimLane(db, lane, token, summary, now).0, id) && TaskMonotone(db, CommitClaim(db, lane, token, now).0, id)
    ensures ReleaseClaim(db, lane, token).Ok? ==> TaskMonotone(db, ReleaseClaim(db, lane, token).value.0, id)
  {
    ClaimIdIsClaim(lane, token);
  }

  lemma LaneOpMonotone(w: World, op: Op, now: nat, digest: Digest, id: string)
    requires DbOk(w.db) && Legal(op) && LaneOp(op)
    ensures TaskMonotone(w.db, Apply(w, op, now, digest).db, id)
  {
    match op
    case OpClaim(lane, token, summary) => ClaimingMonotone(w.db, lane, token, summary, now, id);
    case OpCommit(lane, token) => ClaimingMonotone(w.db, lane, token, "", now, id);
    case OpRelease(lane, token) => ClaimingMonotone(w.db, lane, token, "", now, id);
    case OpReap(host, alive) => ReapMonotone(w.db, host, alive, id);
    case OpRegister(a) => RegisterMonotone(w.db, a, now, id);
    case OpHold(lane, note) => HoldMonotone(w.db, lane, note, now, id);
  }

  lemma DecidedMonotone(db: Db, v: Verdict, task: string, path: string, sha: string, now: nat, id: string)
    requires task in db.tasks && Eligible(v, db.tasks[task])
    ensures TaskMonotone(db, Decided(db, v, task, path, sha, now), id)
  {
  }

  /** A decision leaves the tables alone or is recorded on a row still open to it. */
  lemma DecideShape(w: World, a: VerdictArgs, fail: Failpoint, now: nat, digest: Digest) returns (path: string, sha: string)
    ensures var db' := Decide(w, a, fail, now, digest).0.db;
      db' == w.db || (a.taskId in w.db.tasks && Eligible(a.verdict, w.db.tasks[a.taskId]) && db' == Decided(w.db, a.verdict, a.taskId, path, sha, now))
  {
    path, sha := ResultPath(a.taskId, SuffixOf(a.verdict)), "";
    if a.taskId in w.db.tasks {
      var r := WriteResult(w.files, path, a.result, w.db.tasks[a.taskId].resultSha, digest);
      if r.Ok? { sha := r.value.1; }
    }
  }

  lemma VerdictMonotone(w: World, a: VerdictArgs, fail: Failpoint, now: nat, digest: Digest, id: string)
    ensures TaskMonotone(w.db, Decide(w, a, fail, now, digest).0.db, id)
  {
    var path, sha := DecideShape(w, a, fail, now, digest);
    if Decide(w, a, fail, now, digest).0.db != w.db { DecidedMonotone(w.db, a.verdict, a.taskId, path, sha, now, id); }
  }

  lemma AssignMonotone(db: Db, a: AssignArgs, now: nat, id: string)
    ensures Assign(db, a, now).Ok? ==> TaskMonotone(db, Assign(db, a, now).value, id)
  {
  }

  lemma TransitionMonotone(db: Db, task: string, nonce: string, m: Move, now: nat, id: string)
    ensures Transition(db, task, nonce, m, now).Ok? ==> TaskMonotone(db, Transition(db, task, nonce, m, now).value, id)
  {
  }

  lemma ReconcileMonotone(db: Db, task: string, nonce: string, delivered: bool, now: nat, id: string)
    ensures Reconcile(db, task, nonce, delivered, now).Ok? ==> TaskMonotone(db, Reconcile(db, task, nonce, delivered, now).value, id)
  {
  }

  lemma BackfillMonotone(db: Db, task: string, path: string, now: nat, id: string)
    ensures BackfillWorktree(db, task, path, now).Ok? ==> TaskMonotone(db, BackfillWorktree(db, task, path, now).value, id)
  {
  }

  lemma CancelMonotone(w: World, lane: string, result: Option<Bytes>, abandoned: bool, now: nat, digest: Digest, id: string)
    ensures var r := CancelOpenTask(w, lane, result, abandoned, now, digest); r.Ok? ==> TaskMonotone(w.db, r.value.db, id)
  {
  }

  /** Every step is monotone for every task that is not a claim. */
  lemma StepMonotone(w: World, op: Op, now: nat, digest: Digest, id: string)
    requires DbOk(w.db) && Legal(op)
    ensures TaskMonotone(w.db, Apply(w, op, now, digest).db, id)
  {
    match op
    case OpAssign(a) => AssignMonotone(w.db, a, now, id);
    case OpTransition(task, nonce, m) => TransitionMonotone(w.db, task, nonce, m, now, id);
    case OpReconcile(task, nonce, delivered) => ReconcileMonotone(w.db, task, nonce, delivered, now, id);
    case OpBackfill(task, path) => BackfillMonotone(w.db, task, path, now, id);
    case OpDispatch(d) => DispatchMonotone(w.db, d, now, id);
    case OpDecide(a, fail) => VerdictMonotone(w, a, fail, now, digest, id);
    case OpCancel(lane, result, abandoned) => CancelMonotone(w, lane, result, abandoned, now, digest, id);
    case _ => if LaneOp(op) { LaneOpMonotone(w, op, now, digest, id); } else { NoteOpKeepsTasks(w, op, now, digest); }
  }

  lemma NoteOpKeepsTasks(w: World, op: Op, now: nat, digest: Digest)
    requires NoteOp(op)
    ensures Apply(w, op, now, digest).db.tasks == w.db.tasks
  {
  }

  lemma LaneOpEvents(w: World, op: Op, now: nat, digest: Digest)
    requires LaneOp(op)
    ensures Apply(w, op, now, digest).db.events == w.db.events
  {
  }

  lemma TaskOpEvents(w: World, op: Op, now: nat, digest: Digest)
    requires op.OpAssign? || op.OpTransition? || op.OpReconcile? || op.OpBackfill? || op.OpDispatch? || op.OpCancel? || op.OpReconstruct? || op.OpUpdateSource?
    ensures Apply(w, op, now, digest).db.events == w.db.events
  {
  }

  lemma VerdictEvents(w: World, a: VerdictArgs, fail: Failpoint, now: nat, digest: Digest, key: string)
    ensures EventMonotone(w.db, Decide(w, a, fail, now, digest).0.db, key)
  {
    var path, sha := DecideShape(w, a, fail, now, digest);
  }

  lemma StepEvents(w: World, op: Op, now: nat, digest: Digest, key: string)
    ensures EventMonotone(w.db, Apply(w, op, now, digest).db, key)
  {
    match op
    case OpDecide(a, fail) => VerdictEvents(w, a, fail, now, digest, key);
    case OpObserve(lane, nonce, reason) =>
    case OpNotify(keys, retryAfter) =>
    case OpAck(keys) =>
    case _ => if LaneOp(op) { LaneOpEvents(w, op, now, digest); } else { TaskOpEvents(w, op, now, digest); }
  }

  lemma EvolvesTransitive(a: TaskRow, b: TaskRow, c: TaskRow)
    requires Evolves(a, b) && Evolves(b, c)
    ensures Evolves(a, c)
  {
  }

  /**
   Over any run: a task that is not a claim is never deleted, keeps its lane, pane, nonce, summary and
   birth, only moves forward, stops for good at a terminal status with its result, and has its
   worktree filled in at most once.
   */
  lemma {:induction false} RunMonotone(w: World, ops: seq<(Op, nat)>, digest: Digest, id: string)
    requires Inv(w, digest) && AllLegal(ops)
    ensures TaskMonotone(w.db, Run(w, ops, digest).db, id)
  {
    if ops != [] {
      var before, last := ops[..|ops| - 1], ops[|ops| - 1];
      var mid := Run(w, before, digest);
      RunMonotone(w, before, digest, id);
      RunInv(w, before, digest);
      StepMonotone(mid, last.0, last.1, digest, id);
      if id in w.db.tasks && !IsClaim(id) {
        EvolvesTransitive(w.db.tasks[id], mid.db.tasks[id], Apply(mid, last.0, last.1, digest).db.tasks[id]);
      }
    }
  }

  lemma {:induction false} RunEvents(w: World, ops: seq<(Op, nat)>, digest: Digest, key: string)
    ensures EventMonotone(w.db, Run(w, ops, digest).db, key)
  {
    if ops != [] {
      var last := ops[|ops| - 1];
      RunEvents(w, ops[..|ops| - 1], digest, key);
      StepEvents(Run(w, ops[..|ops| - 1], digest), last.0, last.1, digest, key);
    }
  }

  /** `events_due` misses nothing: an unacknowledged event is due unless its retry is still ahead. */
  lemma NothingUnackedIsLost(w: World, digest: Digest, key: string, now: nat)
    requires Inv(w, digest) && key in w.db.events
    ensures var e := w.db.events[key];
      key in EventsDue(w.db, now) <==> !e.status.Acked? && (e.notifiedAt.None? || (e.retryAt.Some? && e.retryAt.value <= now))
    ensures !w.db.events[key].status.Acked? && w.db.events[key].notifiedAt.Some? ==> w.db.events[key].retryAt.Some?
  {
    assert EventOk(w.db, key);
  }

  /** An unacknowledged event comes due again: some later instant always finds it. */
  lemma UnackedComesDue(w: World, digest: Digest, key: string) returns (at: nat)
    requires Inv(w, digest) && key in w.db.events && !w.db.events[key].status.Acked?
    ensures forall now: nat | now >= at :: key in EventsDue(w.db, now)
  {
    assert EventOk(w.db, key);
    var e := w.db.events[key];
    at := if e.retryAt.Some? && e.retryAt.value > 0 then e.retryAt.value else 0;
  }

  /** Once a task's attention has been acknowledged, that task is over, and stays over. */
  lemma AckedAttentionIsOver(w: World, ops: seq<(Op, nat)>, digest: Digest, key: string)
    requires Inv(w, digest) && AllLegal(ops) && key in w.db.events
    requires w.db.events[key].kind.Attention? && w.db.events[key].status.Acked? && !IsClaim(w.db.events[key].taskId)
    ensures var id := w.db.events[key].taskId;
      && id in w.db.tasks && Terminal(w.db.tasks[id].status)
      && id in Run(w, ops, digest).db.tasks && Run(w, ops, digest).db.tasks[id].status == w.db.tasks[id].status
  {
    assert EventOk(w.db, key);
    RunMonotone(w, ops, digest, w.db.events[key].taskId);
  }

  /** A completed task has its completion event, and keeps it. */
  lemma CompletionAnnounced(w: World, ops: seq<(Op, nat)>, digest: Digest, id: string)
    requires Inv(w, digest) && AllLegal(ops) && id in w.db.tasks && w.db.tasks[id].status.Complete?
    ensures CompletionKey(id) in w.db.events && CompletionKey(id) in Run(w, ops, digest).db.events
  {
    assert RowOk(w.db, id);
    RunEvents(w, ops, digest, CompletionKey(id));
  }
}
