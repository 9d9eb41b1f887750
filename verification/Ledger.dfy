/**
 The ledger itself: four tables and a results directory, updated in place. Each method is one locked
 transaction; a raise restores the tables it began with, and never the results directory.
 */
module LedgerClass {
  import opened Prelude
  import opened Ids
  import opened Tables
  import opened LedgerSpec
  import opened LedgerInvariants
  import opened DispatchSteps
  import opened Columns

  /** The named points of `record_dispatch` where a failure can be injected. */
  datatype DispatchFailpoint = NoDispatchFailpoint | AfterRegisterLane | AfterReconstructTask | AfterAssign
    | AfterMarkDeliveryPending | AfterMarkDelivered | AfterMarkAccepted

  class Ledger {
    var lanes: map<string, LaneRow>
    var tasks: map<string, TaskRow>
    var sources: map<string, SourceRow>
    var events: map<string, EventRow>
    var files: map<string, Bytes>
    const digest: Digest

    function Now(): Db reads this { Db(lanes, tasks, sources, events) }

    function State(): World reads this { World(Now(), files) }

    ghost predicate Valid() reads this { Inv(State(), digest) }

    constructor (digest: Digest)
      ensures Valid() && State() == EMPTY && this.digest == digest
    {
      this.digest := digest;
      lanes, tasks, sources, events, files := map[], map[], map[], map[], map[];
    }

    /** ROLLBACK. */
    method Restore(saved: Db)
      modifies this`lanes, this`tasks, this`sources, this`events
      ensures Now() == saved
    {
      lanes, tasks, sources, events := saved.lanes, saved.tasks, saved.sources, saved.events;
    }

    /** `SELECT id FROM tasks WHERE lane = ? AND status NOT IN (terminal)`, first row. */
    method SelectOpen(lane: string) returns (r: Option<string>)
      ensures r.Some? ==> OpenIn(Now(), r.value, lane)
      ensures r.None? ==> forall id :: !OpenIn(Now(), id, lane)
      ensures OneOpenPerLane(Now()) ==> r == Occupant(Now(), lane)
    {
      if id :| id in tasks && tasks[id].lane == lane && !Terminal(tasks[id].status) {
        assert OpenIn(Now(), id, lane);
        return Some(id);
      }
      return None;
    }

    /** INSERT INTO tasks: refused by the primary key, the partial index or the lane's foreign key. */
    method InsertTask(id: string, row: TaskRow) returns (ok: bool)
      modifies this`tasks
      ensures ok <==> id !in old(tasks) && row.lane in lanes && (Terminal(row.status) || Occupant(old(Now()), row.lane).None?)
      ensures tasks == if ok then old(tasks)[id := row] else old(tasks)
    {
      var holder := SelectOpen(row.lane);
      ok := id !in tasks && row.lane in lanes && (Terminal(row.status) || holder.None?);
      if ok { tasks := tasks[id := row]; }
    }

    /* ---- lanes ---- */

    method LaneAvailable(lane: string) returns (r: Option<bool>)
      requires Valid()
      ensures r == Tables.LaneAvailable(Now(), lane)
    {
      if lane !in lanes { return None; }
      var holder := SelectOpen(lane);
      return Some(holder.None?);
    }

    method CancelTaskRow(id: string, now: nat, path: Option<string>, sha: Option<string>)
      requires id in tasks
      modifies this`tasks, this`sources
      ensures Now() == Cancel(old(Now()), id, now, path, sha)
    {
      tasks := tasks[id := CancelledRow(tasks[id], now, path, sha)];
      if id in sources { sources := sources[id := sources[id].(status := Cancelled, updatedAt := now)]; }
    }

    method RegisterLaneTx(a: LaneArgs, now: nat) returns (r: Outcome<LaneRow>)
      requires DbOk(Now())
      modifies this`lanes, this`tasks, this`sources
      ensures DbOk(Now())
      ensures match LedgerSpec.RegisterLane(old(Now()), a, now)
              case Ok(db) => Now() == db && r == Ok(db.lanes[a.lane])
              case Err(e) => Now() == old(Now()) && r == Err(e)
    {
      var resolved := IdentityOf(a);
      if resolved.Err? { return Err(resolved.error); }
      var identity := resolved.value;
      ghost var before := Now();
      FreeKeeps(before, a.lane, identity, now);
      LanesKeep(FreeForRebind(before, a.lane, identity, now), a.lane, LaneRowFor(before, a, identity, now));
      var row := LaneRowFor(Now(), a, identity, now);
      if Rebinds(Now(), a.lane, identity) {
        var outstanding := SelectOpen(a.lane);
        if outstanding.Some? && tasks[outstanding.value].status != DeliveryPending {
          CancelTaskRow(outstanding.value, now, None, None);
        }
      }
      lanes := lanes[a.lane := row];
      r := Ok(row);
    }

    method RegisterLane(a: LaneArgs, now: nat) returns (r: Outcome<LaneRow>)
      requires Valid()
      modifies this`lanes, this`tasks, this`sources
      ensures Valid() && State() == Apply(old(State()), OpRegister(a), now, digest)
      ensures (r.Ok? <==> IdentityOf(a).Ok?) && (r.Ok? ==> a.lane in lanes && r.value == lanes[a.lane])
    {
      ApplyKeeps(State(), OpRegister(a), now, digest);
      r := RegisterLaneTx(a, now);
    }

    /* ---- claims ---- */

    /**
     INSERT first; a collision is either this token's own finished row, revived in place unless a
     stranger holds the lane, or a stranger's open task. The last SELECT decides what is answered.
     */
    method ClaimLaneTx(lane: string, token: string, summary: string, now: nat) returns (r: Outcome<ClaimReply>)
      modifies this`tasks
      ensures OneOpenPerLane(old(Now())) && (ClaimId(lane, token) in old(tasks) ==> old(tasks)[ClaimId(lane, token)].lane == lane) ==>
        var after := LedgerSpec.ClaimLane(old(Now()), lane, token, summary, now); Now() == after.0 && r == Ok(after.1)
    {
      if lane !in lanes { return Ok(Unknown); }
      var id, nonce := ClaimId(lane, token), lanes[lane].identity.nonce;
      ghost var before := Now();
      assert Open(before, id) && before.tasks[id].lane == lane ==> OpenIn(before, id, lane);
      var inserted := InsertTask(id, NewTask(lane, nonce, summary, now, "", ""));
      if !inserted && id in tasks && Terminal(tasks[id].status) {
        var blocking := SelectOpen(lane);
        if blocking.None? {
          // The UPDATE leaves the row in its recorded lane, so that is the lane the index judges.
          var own := SelectOpen(tasks[id].lane);
          if own.Some? { return Err(LaneBusy); }
          tasks := tasks[id := ReservedRow(Now(), lane, token, summary, now)];
        }
      }
      var holder := SelectOpen(lane);
      if OneOpenPerLane(before) && Occupant(before, lane).None? && OpenIn(Now(), id, lane) { ClaimedOnly(before, Now(), lane, id); }
      return Ok(if holder == Some(id) then Claimed else Occupied(holder));
    }

    /** With a colon-free token this never raises, and answers `Claimed` exactly when it owns the lane. */
    method ClaimLane(lane: string, token: string, note: string, owner: Option<Owner>, now: nat) returns (r: Outcome<ClaimReply>)
      requires Valid()
      modifies this`tasks
      ensures ColonFree(token) ==>
        && Valid()
        && State() == Apply(old(State()), OpClaim(lane, token, ClaimSummary(note, owner)), now, digest)
        && r == Ok(LedgerSpec.ClaimLane(old(Now()), lane, token, ClaimSummary(note, owner), now).1)
    {
      if ColonFree(token) {
        ApplyKeeps(State(), OpClaim(lane, token, ClaimSummary(note, owner)), now, digest);
        ClaimIdInLane(Now(), lane, token);
      }
      r := ClaimLaneTx(lane, token, ClaimSummary(note, owner), now);
    }

    method CommitLaneClaim(lane: string, token: string, now: nat) returns (r: CommitReply)
      requires Valid()
      modifies this`tasks
      ensures Valid() && State() == Apply(old(State()), OpCommit(lane, token), now, digest)
      ensures r == CommitClaim(old(Now()), lane, token, now).1
    {
      ApplyKeeps(State(), OpCommit(lane, token), now, digest);
      var id := ClaimId(lane, token);
      if id !in tasks || tasks[id].lane != lane { return Missing; }
      if tasks[id].status == Delivered { return Committed; }
      if tasks[id].status != Created { return Refused(tasks[id].status); }
      tasks := tasks[id := tasks[id].(status := Delivered, updatedAt := now, deliveredAt := Some(now))];
      return Committed;
    }

    method ReleaseLaneClaim(lane: string, token: string) returns (r: Outcome<bool>)
      requires Valid()
      modifies this`tasks
      ensures Valid() && State() == Apply(old(State()), OpRelease(lane, token), 0, digest)
      ensures r == match ReleaseClaim(old(Now()), lane, token) case Ok((_, gone)) => Ok(gone) case Err(e) => Err(e)
    {
      ApplyKeeps(State(), OpRelease(lane, token), 0, digest);
      var id := ClaimId(lane, token);
      if id !in tasks || tasks[id].lane != lane || tasks[id].status != Created { return Ok(false); }
      if Referenced(Now(), id) { return Err(ForeignKey); }
      tasks := tasks - {id};
      return Ok(true);
    }

    /** Row by row over the reserved claims; one delete the foreign key blocks undoes them all. */
    method ReapRows(host: string, alive: nat -> bool) returns (r: Outcome<set<string>>)
      modifies this`tasks
      ensures match ReapClaims(old(Now()), host, alive)
              case Ok(db) => Now() == db && r == Ok(StaleClaims(old(Now()), host, alive))
              case Err(e) => Now() == old(Now()) && r == Err(e)
    {
      var saved := Now();
      var rows := set id | id in tasks && tasks[id].status.Created? && LikeClaim(id);
      var reaped: set<string> := {};
      assert saved.tasks - reaped == saved.tasks;
      ReapStarts(saved, rows, host, alive);
      while rows != {}
        invariant tasks == saved.tasks - reaped && Now() == saved.(tasks := tasks)
        invariant ReapedSoFar(saved, rows, reaped, host, alive)
        decreases rows
      {
        var id :| id in rows;
        ReapedOneMore(saved, rows, reaped, id, host, alive);
        rows := rows - {id};
        if OwnerGone(saved.tasks[id].summary, host, alive) {
          if Referenced(saved, id) {
            ReapRefused(saved, id, host, alive);
            tasks := saved.tasks;
            return Err(ForeignKey);
          }
          tasks := tasks - {id};
          reaped := reaped + {id};
        }
      }
      ReapDone(saved, reaped, host, alive);
      return Ok(reaped);
    }

    /** The reservations of processes that are gone, and nothing else; or, when an event names one of them, an error. */
    method ReapTx(host: string, alive: nat -> bool) returns (r: Outcome<set<string>>)
      requires DbOk(Now())
      modifies this`tasks
      ensures Reaped(old(Now()), Now(), r, host, alive)
      ensures match ReapClaims(old(Now()), host, alive)
              case Ok(db) => Now() == db && r == Ok(StaleClaims(old(Now()), host, alive))
              case Err(e) => Now() == old(Now()) && r == Err(e)
    {
      ReapedIs(Now(), host, alive);
      r := ReapRows(host, alive);
    }

    method ReapStaleLaneClaims(host: string, alive: nat -> bool) returns (r: Outcome<set<string>>)
      requires Valid()
      modifies this`tasks
      ensures Valid() && State() == Apply(old(State()), OpReap(host, alive), 0, digest)
      ensures r.Ok? ==> r.value == StaleClaims(old(Now()), host, alive)
      ensures Reaped(old(Now()), Now(), r, host, alive)
    {
      ReapKeepsAll(State(), host, alive, digest);
      r := ReapTx(host, alive);
    }

    /** The INSERT's IntegrityError is swallowed: something else already makes the lane read occupied. */
    method MarkLaneHeld(lane: string, note: string, now: nat) returns (held: bool)
      requires Valid()
      modifies this`tasks
      ensures Valid() && State() == Apply(old(State()), OpHold(lane, note), now, digest)
      ensures held <==> tasks != old(tasks)
    {
      ApplyKeeps(State(), OpHold(lane, note), now, digest);
      if lane !in lanes { return false; }
      held := InsertTask(HoldId(lane, now), NewTask(lane, lanes[lane].identity.nonce, HeldSummary(note), now, "", ""));
    }

    /* ---- sources and the task lifecycle ---- */

    method ReconstructTaskTx(a: SourceArgs, now: nat) returns (r: Outcome<SourceRow>)
      requires DbOk(Now())
      modifies this`sources
      ensures DbOk(Now())
      ensures match LedgerSpec.ReconstructTask(old(Now()), a, now)
              case Ok(db) => Now() == db && r == Ok(db.sources[a.taskId])
              case Err(e) => Now() == old(Now()) && r == Err(e)
    {
      if !ValidTaskId(a.taskId) { return Err(InvalidTaskId); }
      if !SourceArgsOk(a) { return Err(InvalidSource); }
      if PullTaken(Now(), a.taskId, a.kind, a.ref) { return Err(OpenPullTaken); }
      SourcesKeep(Now(), sources[a.taskId := SourceRowOf(a, now)]);
      sources := sources[a.taskId := SourceRowOf(a, now)];
      return Ok(sources[a.taskId]);
    }

    method ReconstructTask(a: SourceArgs, now: nat) returns (r: Outcome<SourceRow>)
      requires Valid()
      modifies this`sources
      ensures Valid() && State() == Apply(old(State()), OpReconstruct(a), now, digest)
      ensures (r.Ok? <==> LedgerSpec.ReconstructTask(old(Now()), a, now).Ok?) && (r.Ok? ==> a.taskId in sources && r.value == sources[a.taskId])
    {
      ApplyKeeps(State(), OpReconstruct(a), now, digest);
      r := ReconstructTaskTx(a, now);
    }

    /** Writes only what differs: a second call with the same facts changes nothing, the timestamp included. */
    method UpdateSourceTaskState(id: string, state: Option<string>, status: Option<Status>, now: nat) returns (r: Outcome<SourceRow>)
      requires Valid()
      modifies this`sources
      ensures Valid() && State() == Apply(old(State()), OpUpdateSource(id, state, status), now, digest)
      ensures (r.Ok? <==> UpdateSource(old(Now()), id, state, status, now).Ok?) && (r.Ok? ==> id in sources && r.value == sources[id])
    {
      ApplyKeeps(State(), OpUpdateSource(id, state, status), now, digest);
      if state.None? && status.None? { return Err(BadArguments); }
      if status == Some(DeliveryPending) || state == Some("") { return Err(InvalidSource); }
      if id !in sources { return Err(UnknownSource); }
      var row := sources[id];
      var next := row.(state := if state.Some? then state.value else row.state, status := if status.Some? then status.value else row.status);
      if next != row { sources := sources[id := next.(updatedAt := now)]; }
      return Ok(sources[id]);
    }

    method AssignTx(a: AssignArgs, now: nat) returns (r: Outcome<TaskRow>)
      requires DbOk(Now())
      modifies this`tasks
      ensures DbOk(Now())
      ensures match LedgerSpec.Assign(old(Now()), a, now)
              case Ok(db) => Now() == db && r == Ok(db.tasks[a.taskId])
              case Err(e) => Now() == old(Now()) && r == Err(e)
    {
      AssignKeeps(Now(), a, now);
      if !ValidTaskId(a.taskId) { return Err(InvalidTaskId); }
      if Blank(a.summary) { return Err(EmptyField); }
      var stale := NonceError(Now(), a.lane, a.nonce);
      if stale.Some? { return Err(stale.value); }
      if a.taskId !in sources { return Err(UnknownSource); }
      if !SaysOpen(sources[a.taskId].state) || !sources[a.taskId].status.Created? { return Err(SourceNotOpen); }
      if a.taskId in tasks {
        var row := tasks[a.taskId];
        if row.lane == a.lane && row.paneNonce == a.nonce && row.summary == a.summary { return Ok(row); }
        return Err(TaskIdTaken);
      }
      var inserted := InsertTask(a.taskId, NewTask(a.lane, a.nonce, a.summary, now, a.worktree, lanes[a.lane].identity.paneId));
      if !inserted { return Err(LaneBusy); }
      return Ok(tasks[a.taskId]);
    }

    method Assign(a: AssignArgs, now: nat) returns (r: Outcome<TaskRow>)
      requires Valid()
      modifies this`tasks
      ensures Valid() && State() == Apply(old(State()), OpAssign(a), now, digest)
      ensures (r.Ok? <==> LedgerSpec.Assign(old(Now()), a, now).Ok?) && (r.Ok? ==> a.taskId in tasks && r.value == tasks[a.taskId])
    {
      ApplyKeeps(State(), OpAssign(a), now, digest);
      r := AssignTx(a, now);
    }

    method TransitionTx(id: string, nonce: string, m: Move, now: nat) returns (r: Outcome<TaskRow>)
      modifies this`tasks
      ensures match LedgerSpec.Transition(old(Now()), id, nonce, m, now)
              case Ok(db) => Now() == db && r == Ok(db.tasks[id])
              case Err(e) => Now() == old(Now()) && r == Err(e)
    {
      if id !in tasks { return Err(UnknownTask); }
      var row := tasks[id];
      var stale := NonceError(Now(), row.lane, nonce);
      if stale.Some? { return Err(stale.value); }
      if row.paneNonce != nonce { return Err(StaleNonce); }
      if row.status == Target(m) { return Ok(row); }
      if row.status != From(m) { return Err(WrongStatus); }
      tasks := tasks[id := Advance(row, Target(m), now)];
      return Ok(tasks[id]);
    }

    /** `mark_delivery_pending`, `mark_delivered` and `accept`. */
    method Transition(id: string, nonce: string, m: Move, now: nat) returns (r: Outcome<TaskRow>)
      requires Valid()
      modifies this`tasks
      ensures Valid() && State() == Apply(old(State()), OpTransition(id, nonce, m), now, digest)
      ensures (r.Ok? <==> LedgerSpec.Transition(old(Now()), id, nonce, m, now).Ok?) && (r.Ok? ==> id in tasks && r.value == tasks[id])
    {
      ApplyKeeps(State(), OpTransition(id, nonce, m), now, digest);
      r := TransitionTx(id, nonce, m, now);
    }

    method ReconcileDelivery(id: string, nonce: string, delivered: bool, now: nat) returns (r: Outcome<TaskRow>)
      requires Valid()
      modifies this`tasks
      ensures Valid() && State() == Apply(old(State()), OpReconcile(id, nonce, delivered), now, digest)
      ensures (r.Ok? <==> Reconcile(old(Now()), id, nonce, delivered, now).Ok?) && (r.Ok? ==> id in tasks && r.value == tasks[id])
    {
      ApplyKeeps(State(), OpReconcile(id, nonce, delivered), now, digest);
      var target := if delivered then Delivered else Failed;
      if id !in tasks { return Err(UnknownTask); }
      var row := tasks[id];
      if row.paneNonce != nonce { return Err(StaleNonce); }
      if row.status == target { return Ok(row); }
      if row.status != DeliveryPending { return Err(WrongStatus); }
      tasks := tasks[id := Advance(row, target, now)];
      return Ok(tasks[id]);
    }

    method BackfillTaskWorktreePath(id: string, path: string, now: nat) returns (r: Outcome<TaskRow>)
      requires Valid()
      modifies this`tasks
      ensures Valid() && State() == Apply(old(State()), OpBackfill(id, path), now, digest)
      ensures (r.Ok? <==> BackfillWorktree(old(Now()), id, path, now).Ok?) && (r.Ok? ==> id in tasks && r.value == tasks[id])
    {
      ApplyKeeps(State(), OpBackfill(id, path), now, digest);
      if path == "" { return Err(BadArguments); }
      if id !in tasks { return Err(UnknownTask); }
      if tasks[id].status != Complete || tasks[id].worktreePath != "" { return Err(WrongStatus); }
      tasks := tasks[id := tasks[id].(worktreePath := path, updatedAt := now)];
      return Ok(tasks[id]);
    }

    /* ---- record_dispatch ---- */

    /** The last two writes and the stamp of acceptance. */
    method MoveTx(d: DispatchArgs, fail: DispatchFailpoint, now: nat) returns (r: Outcome<TaskRow>)
      modifies this`tasks
      ensures r.Ok? ==> MovesOf(old(Now()), d, now) == Ok(Now()) && d.source.taskId in tasks && r.value == tasks[d.source.taskId]
      ensures fail.NoDispatchFailpoint? && r.Err? ==> MovesOf(old(Now()), d, now).Err?
    {
      var id, nonce := d.source.taskId, d.laneArgs.nonce;
      var pending := TransitionTx(id, nonce, Attempt, now);
      if pending.Err? || fail == AfterMarkDeliveryPending { return Err(if pending.Err? then pending.error else Injected); }
      var delivered := TransitionTx(id, nonce, Deliver, now);
      if delivered.Err? || fail == AfterMarkDelivered { return Err(if delivered.Err? then delivered.error else Injected); }
      if d.accepted {
        if tasks[id].acceptedAt.None? { tasks := tasks[id := tasks[id].(acceptedAt := Some(now))]; }
        if fail == AfterMarkAccepted { return Err(Injected); }
      }
      return Ok(tasks[id]);
    }

    /** The writes, one by one; a failure leaves whatever was written so far. */
    method RecordDispatchTx(d: DispatchArgs, fail: DispatchFailpoint, now: nat) returns (r: Outcome<TaskRow>)
      requires DbOk(Now())
      modifies this`lanes, this`tasks, this`sources
      ensures r.Ok? ==> StepwiseDispatch(old(Now()), d, now) == Ok(Now()) && d.source.taskId in tasks && r.value == tasks[d.source.taskId]
      ensures fail.NoDispatchFailpoint? && r.Err? ==> StepwiseDispatch(old(Now()), d, now).Err?
    {
      var lane := RegisterLaneTx(d.laneArgs, now);
      if lane.Err? || fail == AfterRegisterLane { return Err(if lane.Err? then lane.error else Injected); }
      ghost var db1 := Now();
      var source := ReconstructTaskTx(d.source, now);
      if source.Err? || fail == AfterReconstructTask { return Err(if source.Err? then source.error else Injected); }
      ghost var db2 := Now();
      assert ReconstructAndAssign(db1, d, now) == AssignAndMove(db2, d, now);
      var entry := AssignTx(AssignArgs(d.source.taskId, d.laneArgs.lane, d.laneArgs.nonce, d.source.summary, d.worktree), now);
      if entry.Err? || fail == AfterAssign { return Err(if entry.Err? then entry.error else Injected); }
      assert AssignAndMove(db2, d, now) == MovesOf(Now(), d, now);
      r := MoveTx(d, fail, now);
    }

    /**
     All or nothing: it succeeds exactly when the lane can be freed, no other open task holds the pull
     and the id is new or resumes, and a failure at any step, real or injected, changes nothing.
     */
    method RecordDispatch(a: LaneArgs, s: SourceArgs, worktree: string, accepted: bool, fail: DispatchFailpoint, now: nat)
      returns (r: Outcome<TaskRow>)
      requires Valid()
      modifies this`lanes, this`tasks, this`sources, this`events
      ensures Valid()
      ensures r.Err? ==> Now() == old(Now())
      ensures var d := ArgsOf(a, s, worktree, accepted);
        && (r.Ok? ==> DispatchOk(old(Now()), d, now) && Now() == Dispatched(old(Now()), d, now) && s.taskId in tasks && r.value == tasks[s.taskId])
        && (fail.NoDispatchFailpoint? ==> (r.Ok? <==> DispatchOk(old(Now()), d, now)))
    {
      var saved, d := Now(), ArgsOf(a, s, worktree, accepted);
      ghost var before := State();
      StepwiseMeetsSpec(saved, d, now);
      DispatchKeepsAll(before, d, now, digest);
      r := RecordDispatchTx(d, fail, now);
      if r.Err? {
        Restore(saved);
        assert State() == before;
      } else {
        assert State() == before.(db := LedgerSpec.RecordDispatch(saved, d, now));
      }
    }

    /* ---- results ---- */

    method StoreResult(path: string, result: Bytes, known: Option<string>) returns (r: Outcome<string>)
      modifies this`files
      ensures match WriteResult(old(files), path, result, known, digest)
              case Ok((after, sha)) => files == after && r == Ok(sha)
              case Err(e) => files == old(files) && r == Err(e)
    {
      if |result| > MAX_RESULT_BYTES || forall i | 0 <= i < |result| :: IsSpaceByte(result[i]) { return Err(BadResult); }
      if path in files {
        if digest(files[path]) != digest(result) && known.Some? { return Err(ResultConflict); }
        return Ok(digest(files[path]));
      }
      files := files[path := result];
      return Ok(digest(result));
    }

    /** `complete`, `fail_unaccepted`, `fail_stale_delivery` and `fail_stale_acceptance`. */
    method Conclude(a: VerdictArgs, fail: Failpoint, now: nat) returns (r: Outcome<()>)
      requires Valid()
      modifies this
      ensures Valid() && State() == Apply(old(State()), OpDecide(a, fail), now, digest)
      ensures r == Decide(old(State()), a, fail, now, digest).1
      ensures
        var asked := ValidTaskId(a.taskId) && a.taskId in old(tasks) && a.nonce == old(tasks)[a.taskId].paneNonce && Storable(a.result);
        asked && old(tasks)[a.taskId].resultSha.None? && fail.NoFailpoint? ==> (r.Ok? <==> ConcludedBy(a.verdict, old(tasks)[a.taskId]))
    {
      if ValidTaskId(a.taskId) && a.taskId in tasks && a.nonce == tasks[a.taskId].paneNonce && Storable(a.result) && tasks[a.taskId].resultSha.None? {
        ConcludeWrites(State(), a, now, digest);
      }
      ApplyKeeps(State(), OpDecide(a, fail), now, digest);
      if !RequireTaskId(a.taskId, a.allowClaim) { return Err(InvalidTaskId); }
      if a.taskId !in tasks { return Err(UnknownTask); }
      var row := tasks[a.taskId];
      if row.paneNonce != a.nonce { return Err(StaleNonce); }
      var path := ResultPath(a.taskId, SuffixOf(a.verdict));
      var stored := StoreResult(path, a.result, row.resultSha);
      if stored.Err? { return Err(stored.error); }
      if fail == AfterResult { return Err(Injected); }
      var saved := Now();
      if row.status == FinalStatus(a.verdict) {
        return if row.resultSha == Some(stored.value) then Ok(()) else Err(ResultConflict);
      }
      if !Eligible(a.verdict, row) { return Err(WrongStatus); }
      tasks := tasks[a.taskId := row.(status := FinalStatus(a.verdict), resultPath := Some(path), resultSha := Some(stored.value),
                                      updatedAt := now, completedAt := Some(now))];
      if fail == AfterTask { Restore(saved); return Err(Injected); }
      events := AddEvent(events, CompletionKey(a.taskId), EventRow(Completion, a.taskId, Pending, Some(path), now, None, None, None));
      if fail == AfterEvent { Restore(saved); return Err(Injected); }
      return Ok(());
    }

    method CancelOpenTask(lane: string, result: Option<Bytes>, abandoned: bool, now: nat) returns (r: Outcome<Option<string>>)
      requires Valid()
      modifies this`tasks, this`sources, this`files
      ensures Valid() && State() == Apply(old(State()), OpCancel(lane, result, abandoned), now, digest)
      ensures r.Ok? <==> LedgerSpec.CancelOpenTask(old(State()), lane, result, abandoned, now, digest).Ok?
      ensures r.Ok? ==> r.value == Occupant(old(Now()), lane)
    {
      ApplyKeeps(State(), OpCancel(lane, result, abandoned), now, digest);
      if abandoned == result.Some? { return Err(BadArguments); }
      if lane !in lanes { return Err(UnknownLane); }
      var open := SelectOpen(lane);
      if open.None? { return Ok(None); }
      var path, sha := None, None;
      if result.Some? {
        var stored := StoreResult(ResultPath(open.value, ""), result.value, tasks[open.value].resultSha);
        if stored.Err? { return Err(stored.error); }
        path, sha := Some(ResultPath(open.value, "")), Some(stored.value);
      }
      CancelTaskRow(open.value, now, path, sha);
      return Ok(open);
    }

    /* ---- events ---- */

    method ObserveAttention(lane: string, nonce: string, reason: string, now: nat) returns (r: Outcome<Option<EventRow>>)
      requires Valid()
      modifies this`events
      ensures Valid() && State() == Apply(old(State()), OpObserve(lane, nonce, reason), now, digest)
      ensures r.Ok? <==> lane in lanes && lanes[lane].identity.nonce == nonce
      ensures r.Ok? ==> (r.value.Some? <==> exists id :: OpenIn(Now(), id, lane) && !tasks[id].status.Created? && !tasks[id].status.DeliveryPending?)
      ensures r.Ok? && r.value.Some? ==> exists id :: OpenIn(Now(), id, lane) && AttentionKey(id, reason) in events && events[AttentionKey(id, reason)] == r.value.value
    {
      ApplyKeeps(State(), OpObserve(lane, nonce, reason), now, digest);
      var stale := NonceError(Now(), lane, nonce);
      if stale.Some? { return Err(stale.value); }
      var open := SelectOpen(lane);
      if open.None? { return Ok(None); }
      var s := tasks[open.value].status;
      if !(s.Delivered? || s.Accepted? || s.Running?) { return Ok(None); }
      var key := AttentionKey(open.value, reason);
      events := AddEvent(events, key, EventRow(Attention, open.value, Pending, None, now, None, None, None));
      assert OpenIn(Now(), open.value, lane) && key == AttentionKey(open.value, reason);
      return Ok(Some(events[key]));
    }

    /** `events_due`: what the supervisor has still to be told, or told again. */
    method EventsDue(now: nat) returns (due: set<string>)
      requires Valid()
      ensures forall k :: k in due <==>
        k in events && !events[k].status.Acked? && (events[k].notifiedAt.None? || (events[k].retryAt.Some? && events[k].retryAt.value <= now))
      ensures forall k | k in events && k !in due :: events[k].status.Acked? || (events[k].retryAt.Some? && events[k].retryAt.value > now)
    {
      due := set k | k in events && Due(events[k], now);
      forall k | k in events
        ensures k in due <==> !events[k].status.Acked? && (events[k].notifiedAt.None? || (events[k].retryAt.Some? && events[k].retryAt.value <= now))
        ensures !events[k].status.Acked? && events[k].notifiedAt.Some? ==> events[k].retryAt.Some?
      {
        assert EventOk(Now(), k);
      }
    }

    method MarkNotifiedTx(keys: seq<string>, retryAfter: int, now: nat) returns (r: Outcome<()>)
      modifies this`events
      ensures match LedgerSpec.MarkNotified(old(Now()), keys, retryAfter, now)
              case Ok(db) => Now() == db && r.Ok?
              case Err(e) => Now() == old(Now()) && r == Err(e)
    {
      var saved := events;
      for i := 0 to |keys|
        invariant events == map k | k in saved :: if k in keys[..i] then Notify(saved[k], retryAfter, now) else saved[k]
        invariant forall k | k in keys[..i] :: k in saved
      {
        var k := keys[i];
        assert keys[..i + 1] == keys[..i] + [k];
        if k !in events { events := saved; return Err(UnknownEvent); }
        events := events[k := Notify(events[k], retryAfter, now)];
      }
      assert keys[..|keys|] == keys;
      return Ok(());
    }

    method MarkNotified(keys: seq<string>, retryAfter: int, now: nat) returns (r: Outcome<()>)
      requires Valid()
      modifies this`events
      ensures Valid() && State() == Apply(old(State()), OpNotify(keys, retryAfter), now, digest)
      ensures r.Ok? <==> forall k | k in keys :: k in old(events)
    {
      ApplyKeeps(State(), OpNotify(keys, retryAfter), now, digest);
      r := MarkNotifiedTx(keys, retryAfter, now);
    }

    /** One refused key refuses them all. */
    method AckTx(keys: seq<string>, now: nat) returns (r: Outcome<()>)
      modifies this`events
      ensures match AckEvents(old(Now()), keys, now)
              case Ok(db) => Now() == db && r.Ok?
              case Err(e) => Now() == old(Now()) && r == Err(e)
    {
      var saved := Now();
      for i := 0 to |keys|
        invariant events == map k | k in saved.events :: if k in keys[..i] then AckOne(saved.events[k], now) else saved.events[k]
        invariant forall k | k in keys[..i] :: k in saved.events && !Undisposed(saved, k)
        invariant Now() == saved.(events := events)
      {
        var k := keys[i];
        assert keys[..i + 1] == keys[..i] + [k];
        if k !in events || Undisposed(Now(), k) {
          events := saved.events;
          return Err(UnknownEvent);
        }
        events := events[k := AckOne(events[k], now)];
      }
      assert keys[..|keys|] == keys;
      return Ok(());
    }

    method Ack(keys: seq<string>, now: nat) returns (r: Outcome<()>)
      requires Valid()
      modifies this`events
      ensures Valid() && State() == Apply(old(State()), OpAck(keys), now, digest)
      ensures r.Ok? <==> forall k | k in keys :: k in old(events) && !Undisposed(old(Now()), k)
    {
      ApplyKeeps(State(), OpAck(keys), now, digest);
      r := AckTx(keys, now);
    }
  }
}
