/**
 Who owns a lane: what a claim may answer, what undoes it, what nothing may undo, what recording a
 dispatch leaves behind, and exactly when a failed recording leaves the lane reading occupied.
 */
module Occupancy {
  import opened Prelude
  import opened Ids
  import opened Tables
  import opened LedgerSpec
  import opened LedgerInvariants

  /** `id` is open in `lane` and nothing else is. */
  ghost predicate SoleOpen(db: Db, lane: string, id: string) {
    OpenIn(db, id, lane) && forall other :: OpenIn(db, other, lane) ==> other == id
  }

  /** `claimed` is answered exactly when, afterwards, this token's claim is the lane's sole open task. */
  lemma ClaimedIffSoleOwner(db: Db, lane: string, token: string, summary: string, now: nat)
    requires DbOk(db) && ColonFree(token) && lane in db.lanes
    ensures var (db', reply) := ClaimLane(db, lane, token, summary, now);
      && (reply.Claimed? <==> SoleOpen(db', lane, ClaimId(lane, token)))
      && (!reply.Claimed? ==> db' == db && reply.Occupied? && reply.holder.Some? && SoleOpen(db, lane, reply.holder.value))
  {
    ClaimKeeps(db, lane, token, summary, now);
    ClaimIdInLane(db, lane, token);
    if Occupant(db, lane).None? {
      var db' := ClaimLane(db, lane, token, summary, now).0;
      assert OpenIn(db', ClaimId(lane, token), lane);
    }
  }

  /** Two dispatchers cannot both be told they own a lane: the second is refused and told by whom. */
  lemma ClaimExcludes(db: Db, lane: string, t1: string, t2: string, s1: string, s2: string, n1: nat, n2: nat)
    requires DbOk(db) && ColonFree(t1) && ColonFree(t2) && t1 != t2
    requires ClaimLane(db, lane, t1, s1, n1).1.Claimed?
    ensures var db' := ClaimLane(db, lane, t1, s1, n1).0;
      ClaimLane(db', lane, t2, s2, n2) == (db', Occupied(Some(ClaimId(lane, t1))))
  {
    ClaimedIffSoleOwner(db, lane, t1, s1, n1);
    ClaimIdInjective(lane, t1, lane, t2);
  }

  /** Releasing a fresh claim restores the very tables it found. */
  lemma ReleaseUndoesClaim(db: Db, lane: string, token: string, summary: string, now: nat)
    requires DbOk(db) && ColonFree(token) && lane in db.lanes && Occupant(db, lane).None?
    requires ClaimId(lane, token) !in db.tasks
    ensures ReleaseClaim(ClaimLane(db, lane, token, summary, now).0, lane, token) == Ok((db, true))
  {
    var id := ClaimId(lane, token);
    var db' := ClaimLane(db, lane, token, summary, now).0;
    assert !Referenced(db', id) by {
      forall key | key in db.events ensures db.events[key].taskId != id { assert EventOk(db, key); }
    }
    assert db'.tasks - {id} == db.tasks;
  }

  /** Once committed, neither cleanup path touches a claim, whatever the liveness test says of its owner. */
  lemma CommittedClaimSurvives(db: Db, lane: string, token: string, now: nat, host: string, alive: nat -> bool)
    requires CommitClaim(db, lane, token, now).1.Committed?
    ensures var (db', _) := CommitClaim(db, lane, token, now); var id := ClaimId(lane, token);
      && id in db'.tasks && db'.tasks[id].status.Delivered? && db'.tasks[id].lane == lane
      && ReleaseClaim(db', lane, token) == Ok((db', false))
      && id !in StaleClaims(db', host, alive)
      && CommitClaim(db', lane, token, now) == (db', Committed)
  {
  }

  /** Why no two live processes may share a token: the second passes both gates of a claim the first has committed. */
  lemma SameTokenPassesTwice(db: Db, lane: string, token: string, note: string, n1: nat, n2: nat)
    requires DbOk(db) && ColonFree(token) && lane in db.lanes
    requires CommitClaim(ClaimLane(db, lane, token, note, n1).0, lane, token, n1).1.Committed?
    requires ClaimLane(db, lane, token, note, n1).1.Claimed?
    ensures var live := CommitClaim(ClaimLane(db, lane, token, note, n1).0, lane, token, n1).0;
      && ClaimLane(live, lane, token, note, n2) == (live, Claimed)
      && CommitClaim(live, lane, token, n2) == (live, Committed)
  {
    ClaimedIffSoleOwner(db, lane, token, note, n1);
    var claimed, id := ClaimLane(db, lane, token, note, n1).0, ClaimId(lane, token);
    var live := CommitClaim(claimed, lane, token, n1).0;
    assert forall other :: OpenIn(live, other, lane) <==> OpenIn(claimed, other, lane);
    assert OpenIn(live, id, lane);
  }

  /* ---- recording a dispatch ---- */

  /** Success leaves the new task alone in its lane, delivered, and whatever stood there before cancelled. */
  lemma DispatchTakesLane(db: Db, d: DispatchArgs, now: nat)
    requires DbOk(db) && DispatchOk(db, d, now)
    ensures var db', lane, id := Dispatched(db, d, now), d.laneArgs.lane, d.source.taskId;
      && SoleOpen(db', lane, id) && db'.tasks[id].status.Delivered?
      && lane in db'.lanes && db'.lanes[lane].identity.nonce == d.laneArgs.nonce && db'.tasks[id].paneNonce == d.laneArgs.nonce
      && (forall prior :: OpenIn(db, prior, lane) && prior != id ==>
            db'.tasks[prior].status.Cancelled? && (prior in db.sources ==> db'.sources[prior].status.Cancelled?))
      && (forall other :: other in db.tasks && other != id && !OpenIn(db, other, lane) ==>
            other in db'.tasks && db'.tasks[other] == db.tasks[other])
  {
    var db', lane, id := Dispatched(db, d, now), d.laneArgs.lane, d.source.taskId;
    var freed := FreeForRebind(db, lane, IdentityOf(d.laneArgs).value, now);
    FreeKeeps(db, lane, IdentityOf(d.laneArgs).value, now);
    if id in db.tasks { assert OpenIn(freed, id, lane); }
    assert OpenIn(db', id, lane);
    forall other | OpenIn(db', other, lane) && other != id ensures false { assert OpenIn(freed, other, lane); }
    forall prior | OpenIn(db, prior, lane) && prior != id
      ensures db'.tasks[prior].status.Cancelled? && (prior in db.sources ==> db'.sources[prior].status.Cancelled?)
    {
      OccupantIs(db, lane, prior);
      assert !OpenIn(freed, prior, lane);
    }
  }

  /** An ambiguous delivery is never swept aside: only the very call it came from may pick it up. */
  lemma PendingBlocksDispatch(db: Db, d: DispatchArgs, now: nat, pending: string)
    requires DbOk(db) && OpenIn(db, pending, d.laneArgs.lane) && db.tasks[pending].status.DeliveryPending?
    requires pending != d.source.taskId || db.tasks[pending].paneNonce != d.laneArgs.nonce
    ensures !DispatchOk(db, d, now) && RecordDispatch(db, d, now) == db
  {
    var lane := d.laneArgs.lane;
    OccupantIs(db, lane, pending);
    if IdentityOf(d.laneArgs).Ok? {
      var freed := FreeForRebind(db, lane, IdentityOf(d.laneArgs).value, now);
      assert freed == db;
      assert Resumes(freed, d) ==> OpenIn(db, d.source.taskId, lane);
    }
  }

  /** A fresh nonce on a known lane is always a new incarnation, so only an ambiguous delivery or the pull can refuse it. */
  lemma FreshNonceDispatches(db: Db, d: DispatchArgs, now: nat)
    requires DbOk(db) && DispatchArgsOk(d) && d.source.taskId !in db.tasks
    requires d.laneArgs.lane in db.lanes ==> db.lanes[d.laneArgs.lane].identity.nonce != d.laneArgs.nonce
    ensures DispatchOk(db, d, now) <==>
      && !(exists p :: OpenIn(db, p, d.laneArgs.lane) && db.tasks[p].status.DeliveryPending?)
      && !PullTaken(FreeForRebind(db, d.laneArgs.lane, IdentityOf(d.laneArgs).value, now), d.source.taskId, d.source.kind, d.source.ref)
  {
    var lane := d.laneArgs.lane;
    var freed := FreeForRebind(db, lane, IdentityOf(d.laneArgs).value, now);
    FreeKeeps(db, lane, IdentityOf(d.laneArgs).value, now);
    forall id | OpenIn(db, id, lane) ensures Occupant(db, lane) == Some(id) && lane in db.lanes {
      OccupantIs(db, lane, id);
      assert RowOk(db, id);
    }
    assert forall id :: OpenIn(freed, id, lane) ==> OpenIn(db, id, lane);
    if Occupant(freed, lane).Some? { OccupantIs(db, lane, Occupant(freed, lane).value); }
  }

  /* ---- holds ---- */

  /** A hold leaves the lane reading free exactly when a finished hold of the same second is in its way. */
  lemma HeldLaneReadsFreeIff(db: Db, lane: string, note: string, now: nat)
    requires DbOk(db)
    ensures LaneAvailable(MarkLaneHeld(db, lane, note, now), lane) == Some(true) <==>
      lane in db.lanes && Occupant(db, lane).None? && HoldId(lane, now) in db.tasks
    ensures lane in db.lanes && Occupant(db, lane).None? && HoldId(lane, now) in db.tasks ==>
      Terminal(db.tasks[HoldId(lane, now)].status)
  {
    var db', id := MarkLaneHeld(db, lane, note, now), HoldId(lane, now);
    if lane in db.lanes && Occupant(db, lane).None? {
      assert RowOk(db, id);
      if id in db.tasks {
        HoldRowLane(id, db.tasks[id].lane, lane, now);
        assert !OpenIn(db, id, lane);
      } else {
        assert OpenIn(db', id, lane);
      }
    }
  }

  function Incarnation(nonce: string): LaneArgs { LaneArgs("a", "%1", nonce, "codex", "/r", "s", "s", "codex", None, "", "") }

  function IncarnationRow(nonce: string, t: nat): LaneRow {
    LaneRow(Identity("%1", nonce, "codex", "/r", "s", "s", "codex", "send-keys"), "", "", t)
  }

  /** A recording refused before it writes anything: nobody knows its harness. */
  function Unrecordable(): Op {
    OpDispatch(DispatchArgs(Incarnation("n").(harness := "vi"), SourceArgs("t", "issue", "u", "1", "s", "OPEN", Created, [], None, None), "", false))
  }

  /** Held, and re-registered within the same second. */
  function HeldThenRebound(t: nat, note: string): seq<(Op, nat)> {
    [(OpRegister(Incarnation("n")), t), (OpHold("a", note), t), (OpRegister(Incarnation("m")), t)]
  }

  lemma HoldCancelled(t: nat, note: string, digest: Digest)
    ensures var id := HoldId("a", t);
      var held := NewTask("a", "n", HeldSummary(note), t, "", "");
      Apply(Apply(Apply(EMPTY, OpRegister(Incarnation("n")), t, digest), OpHold("a", note), t, digest), OpRegister(Incarnation("m")), t, digest)
        == World(Db(map["a" := IncarnationRow("m", t)], map[id := CancelledRow(held, t, None, None)], map[], map[]), map[])
  {
    var id := HoldId("a", t);
    var registered := Db(map["a" := IncarnationRow("n", t)], map[], map[], map[]);
    assert Occupant(EMPTY.db, "a").None? && Occupant(registered, "a").None?;
    assert Apply(EMPTY, OpRegister(Incarnation("n")), t, digest) == World(registered, map[]);
    var held := PutTask(registered, id, NewTask("a", "n", HeldSummary(note), t, "", ""));
    assert Apply(World(registered, map[]), OpHold("a", note), t, digest) == World(held, map[]);
    assert OpenIn(held, id, "a") && forall other :: OpenIn(held, other, "a") ==> other == id;
    assert Occupant(held, "a") == Some(id);
    assert "n"[0] != "m"[0];
    assert Rebinds(held, "a", IncarnationRow("m", t).identity);
  }

  lemma VainRecording(w: World, t: nat, note: string, digest: Digest)
    requires "a" in w.db.lanes && Occupant(w.db, "a").None? && HoldId("a", t) in w.db.tasks
    ensures Apply(w, Unrecordable(), t, digest) == w && !DispatchOk(w.db, Unrecordable().dispatch, t)
    ensures LaneAvailable(Apply(w, OpHold("a", note), t, digest).db, "a") == Some(true)
  {
    assert !DispatchArgsOk(Unrecordable().dispatch);
  }

  /** From the empty ledger, at any second: a recording then fails, holds the lane again, and the lane reads free. */
  lemma SpentSecondLeavesLaneFree(t: nat, note: string, digest: Digest)
    ensures var before := HeldThenRebound(t, note); var ops := before + [(Unrecordable(), t)] + [(OpHold("a", note), t)];
      && AllLegal(ops) && !DispatchOk(Run(EMPTY, before, digest).db, Unrecordable().dispatch, t)
      && LaneAvailable(Run(EMPTY, ops, digest).db, "a") == Some(true)
  {
    var before := HeldThenRebound(t, note);
    HoldCancelled(t, note, digest);
    RunThree(EMPTY, OpRegister(Incarnation("n")), OpHold("a", note), OpRegister(Incarnation("m")), t, digest);
    VainRecording(Run(EMPTY, before, digest), t, note, digest);
    RunOne(EMPTY, before, Unrecordable(), t, digest);
    RunOne(EMPTY, before + [(Unrecordable(), t)], OpHold("a", note), t, digest);
  }
}
