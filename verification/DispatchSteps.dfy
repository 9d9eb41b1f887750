/**
 `record_dispatch` as the chain of its five writes, and the proof that the chain succeeds exactly when
 the lane can be freed, the pull is not taken and the id is new, and then leaves exactly the state
 the specification names.
 */
module DispatchSteps {
  import opened Prelude
  import opened Ids
  import opened Tables
  import opened LedgerSpec
  import opened LedgerInvariants

  /** What the method passes on: its own `transport` argument is never forwarded, and `status` is fixed. */
  function ArgsOf(a: LaneArgs, s: SourceArgs, worktree: string, accepted: bool): DispatchArgs {
    DispatchArgs(a.(transport := None), s.(status := Created), worktree, accepted)
  }

  function StampAccepted(db: Db, id: string, accepted: bool, now: nat): Db
    requires id in db.tasks
  {
    if accepted && db.tasks[id].acceptedAt.None? then PutTask(db, id, db.tasks[id].(acceptedAt := Some(now))) else db
  }

  function MovesOf(db: Db, d: DispatchArgs, now: nat): Outcome<Db> {
    var id, nonce := d.source.taskId, d.laneArgs.nonce;
    match Transition(db, id, nonce, Attempt, now)
    case Err(e) => Err(e)
    case Ok(db4) =>
      match Transition(db4, id, nonce, Deliver, now)
      case Err(e) => Err(e)
      case Ok(db5) => Ok(StampAccepted(db5, id, d.accepted, now))
  }

  ghost function AssignAndMove(db: Db, d: DispatchArgs, now: nat): Outcome<Db> {
    match Assign(db, AssignArgs(d.source.taskId, d.laneArgs.lane, d.laneArgs.nonce, d.source.summary, d.worktree), now)
    case Err(e) => Err(e)
    case Ok(db3) => MovesOf(db3, d, now)
  }

  ghost function ReconstructAndAssign(db: Db, d: DispatchArgs, now: nat): Outcome<Db> {
    match ReconstructTask(db, d.source, now)
    case Err(e) => Err(e)
    case Ok(db2) => AssignAndMove(db2, d, now)
  }

  ghost function StepwiseDispatch(db: Db, d: DispatchArgs, now: nat): Outcome<Db> {
    match RegisterLane(db, d.laneArgs, now)
    case Err(e) => Err(e)
    case Ok(db1) => ReconstructAndAssign(db1, d, now)
  }

  /** The row the last two writes leave behind. */
  function Confirmed(row: TaskRow, accepted: bool, now: nat): TaskRow {
    row.(status := Delivered, updatedAt := now, deliveredAt := Some(now),
         deliveryAttemptedAt := if row.status.Created? then Some(now) else row.deliveryAttemptedAt,
         acceptedAt := if accepted && row.acceptedAt.None? then Some(now) else row.acceptedAt)
  }

  predicate ItsOwnRow(db3: Db, d: DispatchArgs) {
    && d.source.taskId in db3.tasks && d.laneArgs.lane in db3.lanes
    && db3.lanes[d.laneArgs.lane].identity.nonce == d.laneArgs.nonce
    && db3.tasks[d.source.taskId].lane == d.laneArgs.lane && db3.tasks[d.source.taskId].paneNonce == d.laneArgs.nonce
  }

  lemma MoveOnce(db: Db, id: string, nonce: string, m: Move, now: nat)
    requires id in db.tasks && db.tasks[id].lane in db.lanes && db.tasks[id].paneNonce == nonce
    requires db.lanes[db.tasks[id].lane].identity.nonce == nonce
    ensures var row := db.tasks[id];
      Transition(db, id, nonce, m, now) ==
        if row.status == Target(m) then Ok(db) else if row.status == From(m) then Ok(PutTask(db, id, Advance(row, Target(m), now))) else Err(WrongStatus)
  {
  }

  /** The last two writes, on a row the assignment produced or found. */
  lemma MovesMeetSpec(db3: Db, d: DispatchArgs, now: nat)
    requires ItsOwnRow(db3, d)
    ensures var row := db3.tasks[d.source.taskId];
      match MovesOf(db3, d, now)
      case Ok(db5) => (row.status.Created? || row.status.DeliveryPending?) && db5 == PutTask(db3, d.source.taskId, Confirmed(row, d.accepted, now))
      case Err(_) => !row.status.Created? && !row.status.DeliveryPending?
  {
    var id, nonce, row := d.source.taskId, d.laneArgs.nonce, db3.tasks[d.source.taskId];
    MoveOnce(db3, id, nonce, Attempt, now);
    if row.status.Created? || row.status.DeliveryPending? {
      var db4 := Transition(db3, id, nonce, Attempt, now).value;
      MoveOnce(db4, id, nonce, Deliver, now);
      assert StampAccepted(Transition(db4, id, nonce, Deliver, now).value, id, d.accepted, now).tasks == db3.tasks[id := Confirmed(row, d.accepted, now)];
    }
  }

  /** The last three writes, on a lane and a source the first two have put in place. */
  lemma AssignMeetsSpec(freed: Db, db2: Db, d: DispatchArgs, now: nat)
    requires var id, lane := d.source.taskId, d.laneArgs.lane;
      && ValidTaskId(id)
      && db2.tasks == freed.tasks
      && lane in db2.lanes && db2.lanes[lane].identity.nonce == d.laneArgs.nonce && db2.lanes[lane].identity.paneId == d.laneArgs.paneId
      && id in db2.sources && db2.sources[id].state == d.source.state && db2.sources[id].status.Created?
    ensures AssignAndMove(db2, d, now).Ok? <==>
      && SaysOpen(d.source.state) && !Blank(d.source.summary)
      && (if d.source.taskId in freed.tasks then Resumes(freed, d) else Occupant(freed, d.laneArgs.lane).None?)
    ensures AssignAndMove(db2, d, now).Ok? ==>
      AssignAndMove(db2, d, now).value == db2.(tasks := freed.tasks[d.source.taskId := DeliveredRow(freed, d, now)])
  {
    var id, lane := d.source.taskId, d.laneArgs.lane;
    assert forall other :: OpenIn(db2, other, lane) <==> OpenIn(freed, other, lane);
    var entry := Assign(db2, AssignArgs(id, lane, d.laneArgs.nonce, d.source.summary, d.worktree), now);
    if entry.Ok? {
      MovesMeetSpec(entry.value, d, now);
      var moved := MovesOf(entry.value, d, now);
      if moved.Ok? { assert moved.value.tasks == freed.tasks[id := DeliveredRow(freed, d, now)]; }
    }
  }

  /** The chain and the specification agree, on success and on failure. */
  lemma StepwiseMeetsSpec(db: Db, d: DispatchArgs, now: nat)
    requires d.laneArgs.transport.None? && d.source.status.Created?
    ensures StepwiseDispatch(db, d, now).Ok? <==> DispatchOk(db, d, now)
    ensures DispatchOk(db, d, now) ==> StepwiseDispatch(db, d, now) == Ok(Dispatched(db, d, now))
  {
    if IdentityOf(d.laneArgs).Ok? {
      var identity := IdentityOf(d.laneArgs).value;
      var freed := FreeForRebind(db, d.laneArgs.lane, identity, now);
      var db1 := freed.(lanes := db.lanes[d.laneArgs.lane := LaneRowFor(db, d.laneArgs, identity, now)]);
      assert RegisterLane(db, d.laneArgs, now) == Ok(db1);
      assert forall other :: Open(db1, other) <==> Open(freed, other);
      assert PullTaken(db1, d.source.taskId, d.source.kind, d.source.ref) == PullTaken(freed, d.source.taskId, d.source.kind, d.source.ref);
      var r := ReconstructTask(db1, d.source, now);
      if r.Ok? {
        AssignMeetsSpec(freed, r.value, d, now);
      }
    }
  }

  /**
   Whatever transport the caller named, recording a dispatch leaves the lane with its harness's first. The
   same arguments registered outright leave the one that was named: the two agree exactly when none was
   named or it is the first.
   */
  lemma DispatchRecordsFirstTransport(db: Db, a: LaneArgs, s: SourceArgs, worktree: string, accepted: bool, now: nat)
    requires DispatchOk(db, ArgsOf(a, s, worktree, accepted), now)
    ensures TransportsOf(a.harness) != [] && a.lane in Dispatched(db, ArgsOf(a, s, worktree, accepted), now).lanes
    ensures Dispatched(db, ArgsOf(a, s, worktree, accepted), now).lanes[a.lane].identity.transport == TransportsOf(a.harness)[0]
    ensures RegisterLane(db, a, now).Ok? <==> a.transport.None? || a.transport.value in TransportsOf(a.harness)
    ensures RegisterLane(db, a, now).Ok? ==>
      var dispatched, registered := Dispatched(db, ArgsOf(a, s, worktree, accepted), now).lanes, RegisterLane(db, a, now).value.lanes;
      dispatched[a.lane].identity.transport == registered[a.lane].identity.transport <==>
        a.transport.None? || a.transport.value == TransportsOf(a.harness)[0]
  {
  }
}
