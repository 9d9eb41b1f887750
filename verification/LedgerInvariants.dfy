/** The invariant of the tables over every run of every operation. */
module LedgerInvariants {
  import opened Prelude
  import opened Ids
  import opened Tables
  import opened LedgerSpec

  /*
   One open task per lane, every row's lane registered, every claim and hold named after its own lane,
   every recorded hash backed by its file, every completed task announced, and every event either due,
   retried or acknowledged for good.
   */

  /** What writing `row` under `id` must respect. */
  ghost predicate Fits(db: Db, id: string, row: TaskRow) {
    && row.lane in db.lanes
    && IdOk(id, row.lane)
    && (!Terminal(row.status) ==> row.resultSha.None? && forall other :: other != id ==> !OpenIn(db, other, row.lane))
    && (row.status.Complete? ==> CompletionKey(id) in db.events)
    && (id in db.tasks && Terminal(db.tasks[id].status) && !IsClaim(id) ==> Terminal(row.status))
  }

  lemma PutKeeps(db: Db, id: string, row: TaskRow)
    requires DbOk(db) && Fits(db, id, row)
    ensures DbOk(PutTask(db, id, row))
  {
    var db' := PutTask(db, id, row);
    forall a, b, lane | OpenIn(db', a, lane) && OpenIn(db', b, lane) ensures a == b {
      if a != id { assert OpenIn(db, a, lane); }
      if b != id { assert OpenIn(db, b, lane); }
    }
    forall other ensures RowOk(db', other) { assert RowOk(db, other); }
    forall key ensures EventOk(db', key) { assert EventOk(db, key); }
  }

  /** A row that stays in its lane and does not reopen fits wherever the old one did. */
  lemma SameLaneFits(db: Db, id: string, row: TaskRow)
    requires DbOk(db) && id in db.tasks && row.lane == db.tasks[id].lane
    requires !Terminal(row.status) ==> !Terminal(db.tasks[id].status) && row.resultSha.None?
    requires row.status.Complete? ==> CompletionKey(id) in db.events
    ensures Fits(db, id, row)
  {
    assert RowOk(db, id);
    if !Terminal(row.status) {
      assert OpenIn(db, id, row.lane);
    }
  }

  lemma UpdateKeeps(db: Db, id: string, row: TaskRow)
    requires DbOk(db) && id in db.tasks && row.lane == db.tasks[id].lane
    requires !Terminal(row.status) ==> !Terminal(db.tasks[id].status) && row.resultSha.None?
    requires row.status.Complete? ==> CompletionKey(id) in db.events
    ensures DbOk(PutTask(db, id, row))
  {
    SameLaneFits(db, id, row);
    PutKeeps(db, id, row);
  }

  lemma SourcesKeep(db: Db, sources: map<string, SourceRow>)
    requires DbOk(db) && forall id :: id in sources ==> ValidTaskId(id)
    ensures DbOk(db.(sources := sources))
  {
    var db' := db.(sources := sources);
    forall a, b, lane | OpenIn(db', a, lane) && OpenIn(db', b, lane) ensures a == b {
      assert OpenIn(db, a, lane) && OpenIn(db, b, lane);
    }
    forall id ensures RowOk(db', id) { assert RowOk(db, id); }
    forall key ensures EventOk(db', key) { assert EventOk(db, key); }
  }

  lemma LanesKeep(db: Db, lane: string, row: LaneRow)
    requires DbOk(db)
    ensures DbOk(db.(lanes := db.lanes[lane := row]))
  {
    var db' := db.(lanes := db.lanes[lane := row]);
    forall a, b, l | OpenIn(db', a, l) && OpenIn(db', b, l) ensures a == b {
      assert OpenIn(db, a, l) && OpenIn(db, b, l);
    }
    forall id ensures RowOk(db', id) { assert RowOk(db, id); }
    forall key ensures EventOk(db', key) { assert EventOk(db, key); }
  }

  lemma EventsKeep(db: Db, events: map<string, EventRow>)
    requires DbOk(db) && db.events.Keys <= events.Keys
    requires forall key :: EventOk(db.(events := events), key)
    ensures DbOk(db.(events := events))
  {
    var db' := db.(events := events);
    forall a, b, lane | OpenIn(db', a, lane) && OpenIn(db', b, lane) ensures a == b {
      assert OpenIn(db, a, lane) && OpenIn(db, b, lane);
    }
    forall id ensures RowOk(db', id) { assert RowOk(db, id); }
  }

  lemma AddEventKeeps(db: Db, key: string, e: EventRow)
    requires DbOk(db) && e.taskId in db.tasks && e.status.Pending? && e.notifiedAt.None?
    ensures DbOk(db.(events := AddEvent(db.events, key, e)))
  {
    var events := AddEvent(db.events, key, e);
    forall k ensures EventOk(db.(events := events), k) { assert EventOk(db, k); }
    EventsKeep(db, events);
  }

  lemma DeleteKeeps(db: Db, gone: set<string>)
    requires DbOk(db) && forall id | id in gone :: !Referenced(db, id)
    ensures DbOk(db.(tasks := db.tasks - gone))
  {
    var db' := db.(tasks := db.tasks - gone);
    forall a, b, lane | OpenIn(db', a, lane) && OpenIn(db', b, lane) ensures a == b {
      assert OpenIn(db, a, lane) && OpenIn(db, b, lane);
    }
    forall id ensures RowOk(db', id) { assert RowOk(db, id); }
    forall key ensures EventOk(db', key) { assert EventOk(db, key); }
  }

  lemma CancelKeeps(db: Db, id: string, now: nat, path: Option<string>, sha: Option<string>)
    requires DbOk(db) && id in db.tasks
    ensures DbOk(Cancel(db, id, now, path, sha))
  {
    var put := PutTask(db, id, CancelledRow(db.tasks[id], now, path, sha));
    UpdateKeeps(db, id, CancelledRow(db.tasks[id], now, path, sha));
    SourcesKeep(put, Cancel(db, id, now, path, sha).sources);
  }

  lemma FreeKeeps(db: Db, lane: string, identity: Identity, now: nat)
    requires DbOk(db)
    ensures DbOk(FreeForRebind(db, lane, identity, now))
    ensures FreeForRebind(db, lane, identity, now).lanes == db.lanes
  {
    var o := Occupant(db, lane);
    if o.Some? { CancelKeeps(db, o.value, now, None, None); }
  }

  /* ---- one lemma an operation ---- */

  lemma ClaimKeeps(db: Db, lane: string, token: string, summary: string, now: nat)
    requires DbOk(db) && ColonFree(token)
    ensures DbOk(ClaimLane(db, lane, token, summary, now).0)
  {
    if lane in db.lanes && Occupant(db, lane).None? {
      var id := ClaimId(lane, token);
      ClaimIdNames(lane, token);
      if id in db.tasks {
        assert RowOk(db, id);
        ClaimRowLane(id, db.tasks[id].lane, lane, token);
      }
      PutKeeps(db, id, ReservedRow(db, lane, token, summary, now));
    }
  }

  lemma HoldKeeps(db: Db, lane: string, note: string, now: nat)
    requires DbOk(db)
    ensures DbOk(MarkLaneHeld(db, lane, note, now))
  {
    if lane in db.lanes && Occupant(db, lane).None? && HoldId(lane, now) !in db.tasks {
      HoldIdNames(lane, now);
      PutKeeps(db, HoldId(lane, now), NewTask(lane, db.lanes[lane].identity.nonce, HeldSummary(note), now, "", ""));
    }
  }

  lemma AssignKeeps(db: Db, a: AssignArgs, now: nat)
    requires DbOk(db)
    ensures Assign(db, a, now).Ok? ==> DbOk(Assign(db, a, now).value)
  {
    if Assign(db, a, now).Ok? && a.taskId !in db.tasks {
      ValidTaskIdColonFree(a.taskId);
      PutKeeps(db, a.taskId, NewTask(a.lane, a.nonce, a.summary, now, a.worktree, db.lanes[a.lane].identity.paneId));
    }
  }

  lemma DispatchKeeps(db: Db, d: DispatchArgs, now: nat)
    requires DbOk(db)
    ensures DbOk(RecordDispatch(db, d, now))
  {
    if DispatchOk(db, d, now) {
      var lane, id, identity := d.laneArgs.lane, d.source.taskId, IdentityOf(d.laneArgs).value;
      var freed := FreeForRebind(db, lane, identity, now);
      FreeKeeps(db, lane, identity, now);
      LanesKeep(freed, lane, LaneRowFor(db, d.laneArgs, identity, now));
      var named := freed.(lanes := db.lanes[lane := LaneRowFor(db, d.laneArgs, identity, now)]);
      SourcesKeep(named, freed.sources[id := SourceRowOf(d.source, now)]);
      var sourced := named.(sources := freed.sources[id := SourceRowOf(d.source, now)]);
      ValidTaskIdColonFree(id);
      assert RowOk(sourced, id);
      assert forall other :: OpenIn(sourced, other, lane) ==> OpenIn(freed, other, lane);
      if id in freed.tasks { assert OpenIn(sourced, id, lane); }
      PutKeeps(sourced, id, DeliveredRow(freed, d, now));
      assert freed.events == db.events;
      assert RecordDispatch(db, d, now) == PutTask(sourced, id, DeliveredRow(freed, d, now));
    }
  }

  lemma DecidedKeeps(db: Db, v: Verdict, id: string, path: string, sha: string, now: nat)
    requires DbOk(db) && id in db.tasks
    ensures DbOk(Decided(db, v, id, path, sha, now))
  {
    var after := Decided(db, v, id, path, sha, now);
    AddEventKeeps(db, CompletionKey(id), EventRow(Completion, id, Pending, Some(path), now, None, None, None));
    var announced := db.(events := after.events);
    UpdateKeeps(announced, id, after.tasks[id]);
    assert after == PutTask(announced, id, after.tasks[id]);
  }

  lemma NotifyKeeps(db: Db, keys: seq<string>, retryAfter: int, now: nat)
    requires DbOk(db)
    ensures MarkNotified(db, keys, retryAfter, now).Ok? ==> DbOk(MarkNotified(db, keys, retryAfter, now).value)
  {
    var r := MarkNotified(db, keys, retryAfter, now);
    if r.Ok? {
      forall k ensures EventOk(r.value, k) { assert EventOk(db, k); }
      EventsKeep(db, r.value.events);
    }
  }

  lemma AckKeeps(db: Db, keys: seq<string>, now: nat)
    requires DbOk(db)
    ensures AckEvents(db, keys, now).Ok? ==> DbOk(AckEvents(db, keys, now).value)
  {
    var r := AckEvents(db, keys, now);
    if r.Ok? {
      forall k ensures EventOk(r.value, k) { assert EventOk(db, k); }
      EventsKeep(db, r.value.events);
    }
  }

  lemma ObserveKeeps(db: Db, lane: string, nonce: string, reason: string, now: nat)
    requires DbOk(db)
    ensures ObserveAttention(db, lane, nonce, reason, now).Ok? ==> DbOk(ObserveAttention(db, lane, nonce, reason, now).value)
  {
    var o := Occupant(db, lane);
    if o.Some? {
      AddEventKeeps(db, AttentionKey(o.value, reason), EventRow(Attention, o.value, Pending, None, now, None, None, None));
    }
  }

  lemma UpdateSourceKeeps(db: Db, id: string, state: Option<string>, status: Option<Status>, now: nat)
    requires DbOk(db)
    ensures UpdateSource(db, id, state, status, now).Ok? ==> DbOk(UpdateSource(db, id, state, status, now).value)
  {
    var r := UpdateSource(db, id, state, status, now);
    if r.Ok? { SourcesKeep(db, r.value.sources); }
  }

  lemma RegisterKeeps(db: Db, a: LaneArgs, now: nat)
    requires DbOk(db)
    ensures RegisterLane(db, a, now).Ok? ==> DbOk(RegisterLane(db, a, now).value)
  {
    if IdentityOf(a).Ok? {
      var identity := IdentityOf(a).value;
      FreeKeeps(db, a.lane, identity, now);
      LanesKeep(FreeForRebind(db, a.lane, identity, now), a.lane, LaneRowFor(db, a, identity, now));
    }
  }

  lemma CommitKeeps(db: Db, lane: string, token: string, now: nat)
    requires DbOk(db)
    ensures DbOk(CommitClaim(db, lane, token, now).0)
  {
    var id := ClaimId(lane, token);
    assert RowOk(db, id);
    if id in db.tasks && db.tasks[id].status.Created? {
      UpdateKeeps(db, id, db.tasks[id].(status := Delivered, updatedAt := now, deliveredAt := Some(now)));
    }
  }

  lemma TransitionKeeps(db: Db, id: string, nonce: string, m: Move, now: nat)
    requires DbOk(db)
    ensures Transition(db, id, nonce, m, now).Ok? ==> DbOk(Transition(db, id, nonce, m, now).value)
  {
    assert RowOk(db, id);
    if Transition(db, id, nonce, m, now).Ok? && db.tasks[id].status != Target(m) {
      UpdateKeeps(db, id, Advance(db.tasks[id], Target(m), now));
    }
  }

  lemma ReconcileKeeps(db: Db, id: string, nonce: string, delivered: bool, now: nat)
    requires DbOk(db)
    ensures Reconcile(db, id, nonce, delivered, now).Ok? ==> DbOk(Reconcile(db, id, nonce, delivered, now).value)
  {
    assert RowOk(db, id);
    var target := if delivered then Delivered else Failed;
    if Reconcile(db, id, nonce, delivered, now).Ok? && db.tasks[id].status != target {
      UpdateKeeps(db, id, Advance(db.tasks[id], target, now));
    }
  }

  lemma BackfillKeeps(db: Db, id: string, path: string, now: nat)
    requires DbOk(db)
    ensures BackfillWorktree(db, id, path, now).Ok? ==> DbOk(BackfillWorktree(db, id, path, now).value)
  {
    assert RowOk(db, id);
    if BackfillWorktree(db, id, path, now).Ok? {
      UpdateKeeps(db, id, db.tasks[id].(worktreePath := path, updatedAt := now));
    }
  }

  lemma DecideKeeps(w: World, a: VerdictArgs, fail: Failpoint, now: nat, digest: Digest)
    requires DbOk(w.db)
    ensures DbOk(Decide(w, a, fail, now, digest).0.db)
  {
    if a.taskId in w.db.tasks {
      var path := ResultPath(a.taskId, SuffixOf(a.verdict));
      var r := WriteResult(w.files, path, a.result, w.db.tasks[a.taskId].resultSha, digest);
      if r.Ok? { DecidedKeeps(w.db, a.verdict, a.taskId, path, r.value.1, now); }
    }
  }

  lemma CancelOpenKeeps(w: World, lane: string, result: Option<Bytes>, abandoned: bool, now: nat, digest: Digest)
    requires DbOk(w.db)
    ensures CancelOpenTask(w, lane, result, abandoned, now, digest).Ok? ==>
      DbOk(CancelOpenTask(w, lane, result, abandoned, now, digest).value.db)
  {
    var o := Occupant(w.db, lane);
    if o.Some? {
      CancelKeeps(w.db, o.value, now, None, None);
      if result.Some? {
        var r := WriteResult(w.files, ResultPath(o.value, ""), result.value, w.db.tasks[o.value].resultSha, digest);
        if r.Ok? { CancelKeeps(w.db, o.value, now, Some(ResultPath(o.value, "")), Some(r.value.1)); }
      }
    }
  }

  predicate LaneOp(op: Op) { op.OpRegister? || op.OpClaim? || op.OpCommit? || op.OpRelease? || op.OpReap? || op.OpHold? }

  /** Operations on sources and events alone. */
  predicate NoteOp(op: Op) { op.OpReconstruct? || op.OpUpdateSource? || op.OpObserve? || op.OpNotify? || op.OpAck? }

  lemma LaneOpKeepsDb(w: World, op: Op, now: nat, digest: Digest)
    requires DbOk(w.db) && Legal(op) && LaneOp(op)
    ensures DbOk(Apply(w, op, now, digest).db)
  {
    var db := w.db;
    match op
    case OpRegister(a) => RegisterKeeps(db, a, now);
    case OpClaim(lane, token, summary) => ClaimKeeps(db, lane, token, summary, now);
    case OpCommit(lane, token) => CommitKeeps(db, lane, token, now);
    case OpRelease(lane, token) => if !Referenced(db, ClaimId(lane, token)) { DeleteKeeps(db, {ClaimId(lane, token)}); }
    case OpReap(host, alive) => if ReapClaims(db, host, alive).Ok? { DeleteKeeps(db, StaleClaims(db, host, alive)); }
    case OpHold(lane, note) => HoldKeeps(db, lane, note, now);
  }

  lemma ReconstructKeeps(db: Db, a: SourceArgs, now: nat)
    requires DbOk(db)
    ensures ReconstructTask(db, a, now).Ok? ==> DbOk(ReconstructTask(db, a, now).value)
  {
    if ReconstructTask(db, a, now).Ok? { SourcesKeep(db, ReconstructTask(db, a, now).value.sources); }
  }

  lemma NoteOpKeepsDb(w: World, op: Op, now: nat, digest: Digest)
    requires DbOk(w.db) && NoteOp(op)
    ensures DbOk(Apply(w, op, now, digest).db)
  {
    var db := w.db;
    match op
    case OpReconstruct(a) => ReconstructKeeps(db, a, now);
    case OpUpdateSource(id, state, status) => UpdateSourceKeeps(db, id, state, status, now);
    case OpObserve(lane, nonce, reason) => ObserveKeeps(db, lane, nonce, reason, now);
    case OpNotify(keys, retryAfter) => NotifyKeeps(db, keys, retryAfter, now);
    case OpAck(keys) => AckKeeps(db, keys, now);
  }

  lemma TaskOpKeepsDb(w: World, op: Op, now: nat, digest: Digest)
    requires DbOk(w.db) && !LaneOp(op) && !NoteOp(op)
    ensures DbOk(Apply(w, op, now, digest).db)
  {
    var db := w.db;
    match op
    case OpAssign(a) => AssignKeeps(db, a, now);
    case OpTransition(id, nonce, m) => TransitionKeeps(db, id, nonce, m, now);
    case OpReconcile(id, nonce, delivered) => ReconcileKeeps(db, id, nonce, delivered, now);
    case OpBackfill(id, path) => BackfillKeeps(db, id, path, now);
    case OpDispatch(d) => DispatchKeeps(db, d, now);
    case OpDecide(a, fail) => DecideKeeps(w, a, fail, now, digest);
    case OpCancel(lane, result, abandoned) => CancelOpenKeeps(w, lane, result, abandoned, now, digest);
  }

  /** Every operation keeps the database's half of the invariant. */
  lemma ApplyKeepsDb(w: World, op: Op, now: nat, digest: Digest)
    requires DbOk(w.db) && Legal(op)
    ensures DbOk(Apply(w, op, now, digest).db)
  {
    if LaneOp(op) { LaneOpKeepsDb(w, op, now, digest); }
    else if NoteOp(op) { NoteOpKeepsDb(w, op, now, digest); }
    else { TaskOpKeepsDb(w, op, now, digest); }
  }

  /** The results directory only grows, and nothing in it is ever rewritten. */
  lemma FilesOnlyGrow(w: World, op: Op, now: nat, digest: Digest)
    ensures var w' := Apply(w, op, now, digest);
      forall path :: path in w.files ==> path in w'.files && w'.files[path] == w.files[path]
  {
  }

  /** A row either has no recorded hash or has the one it had. */
  predicate SameResult(db: Db, db': Db, id: string) {
    id in db'.tasks && db'.tasks[id].resultSha.Some? ==>
      id in db.tasks && db.tasks[id].resultSha == db'.tasks[id].resultSha && db.tasks[id].resultPath == db'.tasks[id].resultPath
  }

  lemma DispatchResults(db: Db, d: DispatchArgs, now: nat, id: string)
    ensures SameResult(db, RecordDispatch(db, d, now), id)
  {
  }

  lemma ResultsUntouchedByLaneOp(w: World, op: Op, now: nat, digest: Digest, id: string)
    requires LaneOp(op)
    ensures SameResult(w.db, Apply(w, op, now, digest).db, id)
  {
  }

  /** Only `_write_result`'s two callers record a hash. */
  lemma ResultsUntouched(w: World, op: Op, now: nat, digest: Digest, id: string)
    requires !op.OpDecide? && !op.OpCancel?
    ensures SameResult(w.db, Apply(w, op, now, digest).db, id)
  {
    if LaneOp(op) { ResultsUntouchedByLaneOp(w, op, now, digest, id); }
    else if op.OpDispatch? { DispatchResults(w.db, op.dispatch, now, id); }
  }

  lemma CancelResults(w: World, lane: string, result: Option<Bytes>, abandoned: bool, now: nat, digest: Digest, id: string)
    requires ResultOk(w, id, digest)
    ensures var r := CancelOpenTask(w, lane, result, abandoned, now, digest); r.Ok? ==> ResultOk(r.value, id, digest)
  {
  }

  /** Every operation keeps recorded hashes backed by their files. */
  lemma ApplyKeepsResults(w: World, op: Op, now: nat, digest: Digest, id: string)
    requires ResultOk(w, id, digest)
    ensures ResultOk(Apply(w, op, now, digest), id, digest)
  {
    if op.OpCancel? { CancelResults(w, op.lane, op.result, op.abandoned, now, digest, id); }
    else if op.OpDecide? { DecideResults(w, op.verdict, op.fail, now, digest, id); }
    else {
      ResultsUntouched(w, op, now, digest, id);
      FilesOnlyGrow(w, op, now, digest);
      StillBacked(w, Apply(w, op, now, digest), digest, id);
    }
  }

  lemma DecideResults(w: World, a: VerdictArgs, fail: Failpoint, now: nat, digest: Digest, id: string)
    requires ResultOk(w, id, digest)
    ensures ResultOk(Decide(w, a, fail, now, digest).0, id, digest)
  {
  }

  lemma StillBacked(w: World, w': World, digest: Digest, id: string)
    requires ResultOk(w, id, digest) && SameResult(w.db, w'.db, id)
    requires forall path :: path in w.files ==> path in w'.files && w'.files[path] == w.files[path]
    ensures ResultOk(w', id, digest)
  {
  }

  lemma DispatchKeepsAll(w: World, d: DispatchArgs, now: nat, digest: Digest)
    requires Inv(w, digest)
    ensures Inv(w.(db := RecordDispatch(w.db, d, now)), digest)
  {
    ApplyKeeps(w, OpDispatch(d), now, digest);
  }

  /** A claim with a colon-free token can only sit on a row of its own lane. */
  lemma ClaimIdInLane(db: Db, lane: string, token: string)
    requires DbOk(db) && ColonFree(token)
    ensures ClaimId(lane, token) in db.tasks ==> db.tasks[ClaimId(lane, token)].lane == lane
  {
    assert RowOk(db, ClaimId(lane, token));
    if ClaimId(lane, token) in db.tasks { ClaimRowLane(ClaimId(lane, token), db.tasks[ClaimId(lane, token)].lane, lane, token); }
  }

  /** What the reaper's loop has to show, refusing and finishing. */
  lemma ReapRefused(db: Db, id: string, host: string, alive: nat -> bool)
    requires id in db.tasks && Stale(db.tasks[id], id, host, alive) && Referenced(db, id)
    ensures ReapClaims(db, host, alive) == Err(ForeignKey)
  {
  }

  /** `rows` are still to be looked at; of the others exactly the stale ones are gone. */
  predicate ReapedSoFar(db: Db, rows: set<string>, reaped: set<string>, host: string, alive: nat -> bool) {
    && rows !! reaped && rows <= db.tasks.Keys && reaped <= db.tasks.Keys
    && (forall id | id in rows :: db.tasks[id].status.Created? && LikeClaim(id))
    && (forall id | id in db.tasks :: id in reaped <==> id !in rows && Stale(db.tasks[id], id, host, alive))
    && (forall id | id in reaped :: !Referenced(db, id))
  }

  /** Before the first row, the reserved claims are still to be looked at. */
  lemma ReapStarts(db: Db, rows: set<string>, host: string, alive: nat -> bool)
    requires rows == set id | id in db.tasks && db.tasks[id].status.Created? && LikeClaim(id)
    ensures ReapedSoFar(db, rows, {}, host, alive)
  {
  }

  /** One row looked at. */
  lemma ReapedOneMore(db: Db, rows: set<string>, reaped: set<string>, id: string, host: string, alive: nat -> bool)
    requires ReapedSoFar(db, rows, reaped, host, alive) && id in rows
    ensures Stale(db.tasks[id], id, host, alive) <==> OwnerGone(db.tasks[id].summary, host, alive)
    ensures !Stale(db.tasks[id], id, host, alive) ==> ReapedSoFar(db, rows - {id}, reaped, host, alive)
    ensures Stale(db.tasks[id], id, host, alive) && !Referenced(db, id) ==> ReapedSoFar(db, rows - {id}, reaped + {id}, host, alive)
  {
  }

  lemma ReapDone(db: Db, gone: set<string>, host: string, alive: nat -> bool)
    requires ReapedSoFar(db, {}, gone, host, alive)
    ensures StaleClaims(db, host, alive) == gone && ReapClaims(db, host, alive) == Ok(db.(tasks := db.tasks - gone))
  {
  }

  /** Writing one open row into an empty lane makes it the lane's only occupant. */
  lemma ClaimedOnly(before: Db, after: Db, lane: string, id: string)
    requires Occupant(before, lane).None? && OpenIn(after, id, lane)
    requires forall other | other != id :: other in after.tasks ==> other in before.tasks && after.tasks[other] == before.tasks[other]
    ensures forall other :: OpenIn(after, other, lane) ==> other == id
  {
    forall other | other != id ensures !OpenIn(after, other, lane) { assert !OpenIn(before, other, lane); }
  }

  lemma ApplyKeeps(w: World, op: Op, now: nat, digest: Digest)
    requires Inv(w, digest) && Legal(op)
    ensures Inv(Apply(w, op, now, digest), digest)
  {
    ApplyKeepsDb(w, op, now, digest);
    forall id ensures ResultOk(Apply(w, op, now, digest), id, digest) {
      assert ResultOk(w, id, digest);
      ApplyKeepsResults(w, op, now, digest, id);
    }
  }

  lemma ReapKeepsAll(w: World, host: string, alive: nat -> bool, digest: Digest)
    requires Inv(w, digest)
    ensures var r := ReapClaims(w.db, host, alive);
      var w' := if r.Ok? then w.(db := r.value) else w;
      Apply(w, OpReap(host, alive), 0, digest) == w' && Inv(w', digest)
  {
    ApplyKeeps(w, OpReap(host, alive), 0, digest);
  }

  lemma RunOne(w: World, ops: seq<(Op, nat)>, op: Op, now: nat, digest: Digest)
    ensures Run(w, ops + [(op, now)], digest) == Apply(Run(w, ops, digest), op, now, digest)
  {
    assert (ops + [(op, now)])[..|ops|] == ops;
  }

  lemma RunSingle(w: World, op: Op, now: nat, digest: Digest)
    ensures Run(w, [(op, now)], digest) == Apply(w, op, now, digest)
  {
    assert [(op, now)][..0] == [];
  }

  lemma RunThree(w: World, a: Op, b: Op, c: Op, now: nat, digest: Digest)
    ensures Run(w, [(a, now), (b, now), (c, now)], digest) == Apply(Apply(Apply(w, a, now, digest), b, now, digest), c, now, digest)
  {
    RunSingle(w, a, now, digest);
    RunOne(w, [(a, now)], b, now, digest);
    RunOne(w, [(a, now)] + [(b, now)], c, now, digest);
    assert [(a, now)] + [(b, now)] + [(c, now)] == [(a, now), (b, now), (c, now)];
  }

  lemma {:induction false} RunInv(w: World, ops: seq<(Op, nat)>, digest: Digest)
    requires Inv(w, digest) && AllLegal(ops)
    ensures Inv(Run(w, ops, digest), digest)
  {
    if ops != [] {
      RunInv(w, ops[..|ops| - 1], digest);
      ApplyKeeps(Run(w, ops[..|ops| - 1], digest), ops[|ops| - 1].0, ops[|ops| - 1].1, digest);
    }
  }

  /** In every reachable state of every run, with any digest, the invariant holds. */
  lemma Reachable(ops: seq<(Op, nat)>, digest: Digest)
    requires AllLegal(ops)
    ensures Inv(Run(EMPTY, ops, digest), digest)
  {
    RunInv(EMPTY, ops, digest);
  }
}
