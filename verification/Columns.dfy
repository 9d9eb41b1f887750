/**
 What each ledger operation answers and writes, said of the rows and their columns alone: when it succeeds,
 which rows it touches, and what every column of theirs then holds.

 Each lemma is a reading of the tables before and after, not of how the operation gets there.
 */
module Columns {
  import opened Prelude
  import opened Ids
  import opened Tables
  import opened LedgerSpec
  import opened LedgerInvariants
  import opened Lifecycle
  import opened Occupancy

  /* ---- lanes ---- */

  /** The transports a harness can be driven by. */
  predicate Drives(harness: string, transport: string) {
    || (transport == "send-keys" && harness in {"codex", "copilot", "claude", "pi"})
    || (transport == "acp" && harness == "copilot-acp")
    || (transport == "pi-rpc" && harness == "pi")
    || (transport == "claude-print" && harness == "claude")
  }

  lemma HarnessesApart(h: string)
    ensures TransportsOf(h) != [] <==> h in {"codex", "copilot", "claude", "pi", "copilot-acp"}
    ensures forall t :: t in TransportsOf(h) <==> Drives(h, t)
    ensures TransportsOf(h) != [] ==> TransportsOf(h)[0] == if h == "copilot-acp" then "acp" else "send-keys"
  {
  }

  /** A registration is accepted exactly when nothing is empty and its harness can be driven that way. */
  lemma RegisterAccepts(db: Db, a: LaneArgs, now: nat)
    ensures RegisterLane(db, a, now).Ok? <==>
      && a.lane != "" && a.paneId != "" && a.nonce != "" && a.repo != "" && a.serverId != "" && a.sessionId != "" && a.command != ""
      && a.harness in {"codex", "copilot", "claude", "pi", "copilot-acp"} && (a.transport.Some? ==> Drives(a.harness, a.transport.value))
  {
    HarnessesApart(a.harness);
  }

  /** The lane's row then holds what was given; of the two session columns, what was given or, in the same incarnation, what was known. */
  lemma RegisterRecords(db: Db, a: LaneArgs, now: nat)
    requires RegisterLane(db, a, now).Ok?
    ensures var db' := RegisterLane(db, a, now).value;
      && a.lane in db'.lanes && db'.lanes == db.lanes[a.lane := db'.lanes[a.lane]]
      && var row, i := db'.lanes[a.lane], db'.lanes[a.lane].identity;
      && i.paneId == a.paneId && i.nonce == a.nonce && i.harness == a.harness && i.repo == a.repo
      && i.serverId == a.serverId && i.sessionId == a.sessionId && i.command == a.command
      && i.transport == (if a.transport.Some? then a.transport.value else if a.harness == "copilot-acp" then "acp" else "send-keys")
      && row.updatedAt == now
      && var same := a.lane in db.lanes && db.lanes[a.lane].identity == i;
      && row.harnessSessionId == (if a.harnessSessionId != "" then a.harnessSessionId else if same then db.lanes[a.lane].harnessSessionId else "")
      && row.harnessProjectDir == (if a.harnessProjectDir != "" then a.harnessProjectDir else if same then db.lanes[a.lane].harnessProjectDir else "")
  {
    HarnessesApart(a.harness);
  }

  /** A row that has been cancelled with or without a result, and is otherwise as it was. */
  predicate CancelledWith(r: TaskRow, r': TaskRow, path: Option<string>, sha: Option<string>, now: nat) {
    && r'.status.Cancelled? && r'.resultPath == path && r'.resultSha == sha && r'.completedAt == Some(now) && r'.updatedAt == now
    && r'.lane == r.lane && r'.paneNonce == r.paneNonce && r'.paneId == r.paneId && r'.summary == r.summary && r'.createdAt == r.createdAt
    && r'.worktreePath == r.worktreePath && r'.acceptedAt == r.acceptedAt && r'.deliveredAt == r.deliveredAt && r'.deliveryAttemptedAt == r.deliveryAttemptedAt
  }

  /** Registering cancels one task at most: the lane's open one, when any of its eight columns changed and its delivery is not in doubt. */
  lemma RegisterCancels(db: Db, a: LaneArgs, now: nat, id: string)
    requires DbOk(db) && RegisterLane(db, a, now).Ok?
    ensures var db' := RegisterLane(db, a, now).value;
      && db'.tasks.Keys == db.tasks.Keys && db'.sources.Keys == db.sources.Keys && db'.events == db.events
      && (id in db.tasks ==>
            if OpenIn(db, id, a.lane) && a.lane in db.lanes && db.lanes[a.lane].identity != db'.lanes[a.lane].identity && !db.tasks[id].status.DeliveryPending?
            then CancelledWith(db.tasks[id], db'.tasks[id], None, None, now) && (id in db.sources ==> db'.sources[id].status.Cancelled?)
            else db'.tasks[id] == db.tasks[id] && (id in db.sources ==> db'.sources[id] == db.sources[id]))
  {
    if id in db.tasks && OpenIn(db, id, a.lane) { OccupantIs(db, a.lane, id); }
  }

  /* ---- claims and holds ---- */

  /** A free lane is claimed by a row that bears the lane's current nonce, new or revived alike. */
  lemma ClaimWrites(db: Db, lane: string, token: string, summary: string, now: nat)
    requires DbOk(db) && ColonFree(token) && lane in db.lanes && forall id :: !OpenIn(db, id, lane)
    ensures var (db', reply) := ClaimLane(db, lane, token, summary, now);
      var id := ClaimId(lane, token);
      && reply.Claimed? && id in db'.tasks && db'.tasks == db.tasks[id := db'.tasks[id]]
      && db'.lanes == db.lanes && db'.sources == db.sources && db'.events == db.events
      && var row := db'.tasks[id];
      && row.lane == lane && row.paneNonce == db.lanes[lane].identity.nonce && row.summary == summary && row.status.Created?
      && row.createdAt == now && row.updatedAt == now && row.resultPath.None? && row.resultSha.None?
      && row.deliveryAttemptedAt.None? && row.deliveredAt.None? && row.acceptedAt.None? && row.completedAt.None?
  {
    ClaimIdInLane(db, lane, token);
  }

  lemma CommitWrites(db: Db, lane: string, token: string, now: nat)
    requires OpenIn(db, ClaimId(lane, token), lane) && db.tasks[ClaimId(lane, token)].status.Created?
    ensures var (db', reply) := CommitClaim(db, lane, token, now);
      var id := ClaimId(lane, token);
      && reply.Committed? && id in db'.tasks && db' == PutTask(db, id, db'.tasks[id])
      && db'.tasks[id].status.Delivered? && db'.tasks[id].deliveredAt == Some(now) && db'.tasks[id].updatedAt == now
      && db'.tasks[id].(status := Created, deliveredAt := db.tasks[id].deliveredAt, updatedAt := db.tasks[id].updatedAt) == db.tasks[id]
  {
  }

  /** What committing answers: no such claim, live already, refused with the status found, or committed now. */
  lemma CommitAnswers(db: Db, lane: string, token: string, now: nat)
    ensures var (db', reply), id := CommitClaim(db, lane, token, now), ClaimId(lane, token);
      && (reply.Missing? <==> id !in db.tasks || db.tasks[id].lane != lane)
      && (reply.Committed? <==> id in db.tasks && db.tasks[id].lane == lane && (db.tasks[id].status.Created? || db.tasks[id].status.Delivered?))
      && (reply.Refused? ==> reply.status == db.tasks[id].status)
      && (db' != db ==> reply.Committed? && db.tasks[id].status.Created?)
  {
  }

  /** An unknown lane is answered as unknown, a taken one with who has it; neither changes anything. */
  lemma ClaimRefuses(db: Db, lane: string, token: string, summary: string, now: nat, holder: string)
    requires OneOpenPerLane(db)
    ensures lane !in db.lanes ==> ClaimLane(db, lane, token, summary, now) == (db, Unknown)
    ensures lane in db.lanes && OpenIn(db, holder, lane) && holder != ClaimId(lane, token) ==>
      ClaimLane(db, lane, token, summary, now) == (db, Occupied(Some(holder)))
  {
    if OpenIn(db, holder, lane) { OccupantIs(db, lane, holder); }
  }

  /** A live, finished or foreign claim is not released; a reserved one is, unless an event names it. */
  lemma ReleaseDeletes(db: Db, lane: string, token: string)
    ensures var id, r := ClaimId(lane, token), ReleaseClaim(db, lane, token);
      if id in db.tasks && db.tasks[id].lane == lane && db.tasks[id].status.Created?
      then (r.Err? <==> exists key :: key in db.events && db.events[key].taskId == id) && (r.Ok? ==> r.value == (db.(tasks := db.tasks - {id}), true))
      else r == Ok((db, false))
  {
  }

  lemma HoldWrites(db: Db, lane: string, note: string, now: nat)
    requires lane in db.lanes && (forall id :: !OpenIn(db, id, lane)) && HoldId(lane, now) !in db.tasks
    ensures var db', id := MarkLaneHeld(db, lane, note, now), HoldId(lane, now);
      && id in db'.tasks && db' == PutTask(db, id, db'.tasks[id])
      && var row := db'.tasks[id];
      && row.lane == lane && row.status.Created? && row.paneNonce == db.lanes[lane].identity.nonce && row.summary == "ledger record failed: " + note
      && row.createdAt == now && row.updatedAt == now
  {
  }

  /* ---- the reaper ---- */

  /** A reservation whose summary names a process of this host that the liveness test calls gone. */
  ghost predicate NamesTheDead(db: Db, id: string, host: string, alive: nat -> bool) {
    && id in db.tasks && db.tasks[id].status.Created? && IsClaim(id)
    && exists o :: ParseOwner(db.tasks[id].summary) == Some(o) && o.host == host && !alive(o.pid)
  }

  lemma ClaimIsLikeClaim(id: string)
    requires IsClaim(id)
    ensures LikeClaim(id)
  {
    assert forall i | 0 <= i < |CLAIM_PREFIX| :: id[i] == CLAIM_PREFIX[i] && Lower(CLAIM_PREFIX[i]) == CLAIM_PREFIX[i];
  }

  lemma StaleNamesTheDead(db: Db, id: string, host: string, alive: nat -> bool)
    requires DbOk(db) && id in db.tasks
    ensures Stale(db.tasks[id], id, host, alive) <==> NamesTheDead(db, id, host, alive)
  {
    assert RowOk(db, id);
    if LikeClaim(id) { LikeClaimIsClaim(id, db.tasks[id].lane); }
    if IsClaim(id) { ClaimIsLikeClaim(id); }
  }

  /** A reap takes exactly those, unless an event names one of them: then it raises, and takes nothing. */
  lemma ReapTakes(db: Db, host: string, alive: nat -> bool)
    requires DbOk(db)
    ensures var r := ReapClaims(db, host, alive);
      && (r.Err? <==> exists id, key :: NamesTheDead(db, id, host, alive) && key in db.events && db.events[key].taskId == id)
      && (r.Ok? ==> r.value == db.(tasks := r.value.tasks) && r.value.tasks.Keys <= db.tasks.Keys)
      && (r.Ok? ==> forall id | id in db.tasks ::
            if NamesTheDead(db, id, host, alive) then id !in r.value.tasks else id in r.value.tasks && r.value.tasks[id] == db.tasks[id])
  {
    forall id | id in db.tasks ensures Stale(db.tasks[id], id, host, alive) <==> NamesTheDead(db, id, host, alive) { StaleNamesTheDead(db, id, host, alive); }
    if id, key :| NamesTheDead(db, id, host, alive) && key in db.events && db.events[key].taskId == id {
      assert id in StaleClaims(db, host, alive) && Referenced(db, id);
    }
  }

  /** The same of what a reap answered: the reservations it took, or an error and nothing. */
  ghost predicate Reaped(before: Db, after: Db, r: Outcome<set<string>>, host: string, alive: nat -> bool) {
    && (r.Err? <==> exists id, key :: NamesTheDead(before, id, host, alive) && key in before.events && before.events[key].taskId == id)
    && (r.Err? ==> after == before)
    && (r.Ok? ==> after == before.(tasks := before.tasks - r.value) && forall id :: id in r.value <==> NamesTheDead(before, id, host, alive))
  }

  lemma ReapedIs(db: Db, host: string, alive: nat -> bool)
    requires DbOk(db)
    ensures ReapClaims(db, host, alive).Ok? ==> Reaped(db, ReapClaims(db, host, alive).value, Ok(StaleClaims(db, host, alive)), host, alive)
    ensures ReapClaims(db, host, alive).Err? ==> Reaped(db, db, Err(ReapClaims(db, host, alive).error), host, alive)
  {
    ReapTakes(db, host, alive);
    forall id | id in db.tasks ensures Stale(db.tasks[id], id, host, alive) <==> NamesTheDead(db, id, host, alive) { StaleNamesTheDead(db, id, host, alive); }
  }

  lemma NewClaimIsUnreferenced(db: Db, id: string)
    requires DbOk(db) && id !in db.tasks
    ensures forall key | key in db.events :: db.events[key].taskId != id
  {
    forall key | key in db.events ensures db.events[key].taskId != id { assert EventOk(db, key); }
  }

  /**
   A claim new to its id, whatever its note, is gone after a reap exactly when the reap ran on its owner's
   host, found the owner gone, and did not raise; the lane then reads free. It raises over another row only:
   some other reservation of a process it calls gone which an event names.
   */
  lemma DeadOwnersClaimIsReaped(db: Db, lane: string, token: string, note: string, owner: Owner, now: nat, host: string, alive: nat -> bool)
    requires DbOk(db) && ColonFree(token) && ValidHost(owner.host) && owner.pid > 0 && ClaimId(lane, token) !in db.tasks
    requires ClaimLane(db, lane, token, ClaimSummary(note, Some(owner)), now).1.Claimed?
    ensures var id, db' := ClaimId(lane, token), ClaimLane(db, lane, token, ClaimSummary(note, Some(owner)), now).0;
      var r := ReapClaims(db', host, alive);
      && id in db'.tasks
      && (r.Ok? ==> (id !in r.value.tasks <==> owner.host == host && !alive(owner.pid)))
      && (r.Ok? && id !in r.value.tasks ==> LaneAvailable(r.value, lane) == Some(true))
      && (r.Err? <==> exists other, key :: other != id && NamesTheDead(db', other, host, alive) && key in db'.events && db'.events[key].taskId == other)
  {
    var id, summary := ClaimId(lane, token), ClaimSummary(note, Some(owner));
    ClaimKeeps(db, lane, token, summary, now);
    ClaimTook(db, lane, token, summary, now);
    OwnerRoundTrip(note, owner);
    ClaimIdNames(lane, token);
    NewClaimIsUnreferenced(db, id);
    LoneReservation(ClaimLane(db, lane, token, summary, now).0, lane, id, owner, host, alive);
  }

  /** The same of any reservation no event names, alone in its lane. */
  lemma LoneReservation(db: Db, lane: string, id: string, owner: Owner, host: string, alive: nat -> bool)
    requires DbOk(db) && lane in db.lanes && id in db.tasks && IsClaim(id) && db.tasks[id].status.Created? && ParseOwner(db.tasks[id].summary) == Some(owner)
    requires (forall key | key in db.events :: db.events[key].taskId != id) && forall other :: OpenIn(db, other, lane) ==> other == id
    ensures var r := ReapClaims(db, host, alive);
      && (r.Ok? ==> (id !in r.value.tasks <==> owner.host == host && !alive(owner.pid)))
      && (r.Ok? && id !in r.value.tasks ==> LaneAvailable(r.value, lane) == Some(true))
      && (r.Err? <==> exists other, key :: other != id && NamesTheDead(db, other, host, alive) && key in db.events && db.events[key].taskId == other)
  {
    ReapTakes(db, host, alive);
    var r := ReapClaims(db, host, alive);
    assert NamesTheDead(db, id, host, alive) <==> owner.host == host && !alive(owner.pid);
    if r.Ok? && id !in r.value.tasks { LeftEmpty(db, r.value, lane, id); }
  }

  lemma LeftEmpty(db: Db, db': Db, lane: string, id: string)
    requires lane in db.lanes && db'.lanes == db.lanes && id !in db'.tasks && forall other :: OpenIn(db, other, lane) ==> other == id
    requires forall other | other in db'.tasks :: other in db.tasks && db'.tasks[other] == db.tasks[other]
    ensures LaneAvailable(db', lane) == Some(true)
  {
    forall other ensures !OpenIn(db', other, lane) { assert OpenIn(db', other, lane) ==> OpenIn(db, other, lane); }
  }

  /** Who is told it claimed under a new id found the lane free and is now alone in it. */
  lemma ClaimTook(db: Db, lane: string, token: string, summary: string, now: nat)
    requires DbOk(db) && ColonFree(token) && ClaimId(lane, token) !in db.tasks && ClaimLane(db, lane, token, summary, now).1.Claimed?
    ensures var id, db' := ClaimId(lane, token), ClaimLane(db, lane, token, summary, now).0;
      && lane in db.lanes && db'.lanes == db.lanes && db'.events == db.events && db'.tasks == db.tasks[id := db'.tasks[id]]
      && id in db'.tasks && db'.tasks[id].status.Created? && db'.tasks[id].summary == summary && db'.tasks[id].lane == lane
      && forall other :: OpenIn(db', other, lane) ==> other == id
  {
    if Occupant(db, lane).None? { ClaimWrites(db, lane, token, summary, now); }
    var db' := ClaimLane(db, lane, token, summary, now).0;
    forall other | other != ClaimId(lane, token) ensures !OpenIn(db', other, lane) { assert !OpenIn(db, other, lane); }
  }

  /**
   A claim revived over a row some event names can no longer be given up: releasing it raises, and once its
   owner is gone every reap on that host raises and takes nothing, this claim included.
   */
  lemma NamedClaimCannotBeTakenBack(db: Db, lane: string, token: string, note: string, owner: Owner, now: nat, alive: nat -> bool, key: string)
    requires DbOk(db) && ColonFree(token) && ValidHost(owner.host) && owner.pid > 0 && lane in db.lanes && (forall id :: !OpenIn(db, id, lane))
    requires key in db.events && db.events[key].taskId == ClaimId(lane, token)
    ensures var db' := ClaimLane(db, lane, token, ClaimSummary(note, Some(owner)), now).0;
      && ClaimLane(db, lane, token, ClaimSummary(note, Some(owner)), now).1.Claimed?
      && ReleaseClaim(db', lane, token).Err?
      && (!alive(owner.pid) ==> ReapClaims(db', owner.host, alive).Err?)
  {
    var summary := ClaimSummary(note, Some(owner));
    ClaimWrites(db, lane, token, summary, now);
    ClaimKeeps(db, lane, token, summary, now);
    var db' := ClaimLane(db, lane, token, summary, now).0;
    OwnerRoundTrip(note, owner);
    ClaimIdNames(lane, token);
    ReleaseDeletes(db', lane, token);
    ReapTakes(db', owner.host, alive);
    assert !alive(owner.pid) ==> NamesTheDead(db', ClaimId(lane, token), owner.host, alive);
  }

  /** Claimed, committed, seen waiting, and cancelled: the finished claim is named by its event. */
  function NamedClaimOps(token: string, summary: string): seq<(Op, nat)> {
    [(OpRegister(Incarnation("n")), 0), (OpClaim("a", token, summary), 0), (OpCommit("a", token), 0)]
      + [(OpObserve("a", "n", "idle"), 0)] + [(OpCancel("a", None, true), 0)]
  }

  lemma ClaimCommitted(token: string, summary: string, digest: Digest)
    requires ColonFree(token)
    ensures var id := ClaimId("a", token);
      Apply(Apply(Apply(EMPTY, OpRegister(Incarnation("n")), 0, digest), OpClaim("a", token, summary), 0, digest), OpCommit("a", token), 0, digest)
        == World(Db(map["a" := IncarnationRow("n", 0)], map[id := NewTask("a", "n", summary, 0, "", "").(status := Delivered, deliveredAt := Some(0))], map[], map[]), map[])
  {
    var id := ClaimId("a", token);
    var db1 := Db(map["a" := IncarnationRow("n", 0)], map[], map[], map[]);
    assert Occupant(EMPTY.db, "a").None? && Occupant(db1, "a").None?;
    assert Apply(EMPTY, OpRegister(Incarnation("n")), 0, digest) == World(db1, map[]);
    var db2 := PutTask(db1, id, NewTask("a", "n", summary, 0, "", ""));
    assert Apply(World(db1, map[]), OpClaim("a", token, summary), 0, digest) == World(db2, map[]);
  }

  lemma SeenAndCancelled(w: World, id: string, digest: Digest)
    requires w.db.tasks.Keys == {id} && OpenIn(w.db, id, "a") && w.db.tasks[id].status.Delivered? && w.db.events == map[]
    requires "a" in w.db.lanes && w.db.lanes["a"].identity.nonce == "n"
    ensures var w' := Apply(Apply(w, OpObserve("a", "n", "idle"), 0, digest), OpCancel("a", None, true), 0, digest);
      var key := AttentionKey(id, "idle");
      key in w'.db.events && w'.db.events[key].taskId == id && "a" in w'.db.lanes && forall other :: !OpenIn(w'.db, other, "a")
  {
    assert forall other :: OpenIn(w.db, other, "a") ==> other == id;
    assert Occupant(w.db, "a") == Some(id);
    var w1 := Apply(w, OpObserve("a", "n", "idle"), 0, digest);
    assert w1.db.tasks == w.db.tasks && w1.db.lanes == w.db.lanes;
    assert forall other :: OpenIn(w1.db, other, "a") <==> OpenIn(w.db, other, "a");
  }

  /** It does happen: a run from the empty ledger after which the next claim under that token can never be taken back. */
  lemma NamedClaimHappens(token: string, note: string, owner: Owner, now: nat, alive: nat -> bool, digest: Digest)
    requires ColonFree(token) && ValidHost(owner.host) && owner.pid > 0 && !alive(owner.pid)
    ensures var ops := NamedClaimOps(token, "s"); var db := Run(EMPTY, ops, digest).db;
      var (db', reply) := ClaimLane(db, "a", token, ClaimSummary(note, Some(owner)), now);
      && AllLegal(ops) && DbOk(db) && reply.Claimed?
      && ReleaseClaim(db', "a", token).Err? && ReapClaims(db', owner.host, alive).Err?
  {
    var ops := NamedClaimOps(token, "s");
    var first := [(OpRegister(Incarnation("n")), 0), (OpClaim("a", token, "s"), 0), (OpCommit("a", token), 0)];
    ClaimCommitted(token, "s", digest);
    RunThree(EMPTY, OpRegister(Incarnation("n")), OpClaim("a", token, "s"), OpCommit("a", token), 0, digest);
    RunOne(EMPTY, first, OpObserve("a", "n", "idle"), 0, digest);
    RunOne(EMPTY, first + [(OpObserve("a", "n", "idle"), 0)], OpCancel("a", None, true), 0, digest);
    SeenAndCancelled(Run(EMPTY, first, digest), ClaimId("a", token), digest);
    Reachable(ops, digest);
    NamedClaimCannotBeTakenBack(Run(EMPTY, ops, digest).db, "a", token, note, owner, now, alive, AttentionKey(ClaimId("a", token), "idle"));
  }

  /* ---- sources ---- */

  /** Some other open task works on this pull. */
  predicate PullHeld(db: Db, id: string, ref: string) {
    exists other | other in db.sources :: other != id && db.sources[other].kind == "pull" && db.sources[other].ref == ref
      && other in db.tasks && !db.tasks[other].status.Complete? && !db.tasks[other].status.Failed? && !db.tasks[other].status.Cancelled?
  }

  /** When a source row is written, and every column it then holds. */
  lemma ReconstructWrites(db: Db, a: SourceArgs, now: nat)
    ensures var r := ReconstructTask(db, a, now);
      && (r.Ok? <==>
            && ValidTaskId(a.taskId) && (a.kind == "issue" || a.kind == "pull") && !a.status.DeliveryPending?
            && a.url != "" && a.ref != "" && a.summary != "" && a.state != "" && (forall e | e in a.evidence :: e != "")
            && (a.status.Complete? || a.status.Failed? || a.status.Cancelled? ==> a.evidence != [])
            && !(a.kind == "pull" && PullHeld(db, a.taskId, a.ref)))
      && (r.Ok? ==>
            && a.taskId in r.value.sources && r.value == db.(sources := db.sources[a.taskId := r.value.sources[a.taskId]])
            && var row := r.value.sources[a.taskId];
            && row.kind == a.kind && row.url == a.url && row.ref == a.ref && row.summary == a.summary && row.state == a.state && row.status == a.status
            && row.evidence == a.evidence && row.marker == a.marker && row.isReview == a.isReview && row.updatedAt == now)
  {
    assert PullTaken(db, a.taskId, a.kind, a.ref) <==> a.kind == "pull" && PullHeld(db, a.taskId, a.ref);
  }

  /** The row afterwards holds both facts given, and says when it last changed. */
  lemma UpdateSourceWrites(db: Db, id: string, state: Option<string>, status: Option<Status>, now: nat)
    ensures var r := UpdateSource(db, id, state, status, now);
      && (r.Ok? <==> (state.Some? || status.Some?) && status != Some(DeliveryPending) && state != Some("") && id in db.sources)
      && (r.Ok? ==>
            && id in r.value.sources && r.value == db.(sources := db.sources[id := r.value.sources[id]])
            && var row, row' := db.sources[id], r.value.sources[id];
            && (state.Some? ==> row'.state == state.value) && (state.None? ==> row'.state == row.state)
            && (status.Some? ==> row'.status == status.value) && (status.None? ==> row'.status == row.status)
            && row'.updatedAt == (if row'.state == row.state && row'.status == row.status then row.updatedAt else now)
            && row'.(state := row.state, status := row.status, updatedAt := row.updatedAt) == row)
  {
    if id in db.sources { assert db.sources == db.sources[id := db.sources[id]]; }
  }

  /* ---- the task lifecycle ---- */

  predicate SaysBlank(s: string) { forall c | c in s :: c == ' ' || '\t' <= c <= '\r' }

  predicate SpellsOpen(s: string) { |s| == 4 && forall i | 0 <= i < 4 :: s[i] == "OPEN"[i] || s[i] == "open"[i] }

  lemma OpenInAnyCase(s: string)
    ensures SaysOpen(s) <==> SpellsOpen(s)
    ensures Blank(s) <==> SaysBlank(s)
  {
    if |s| == 4 {
      assert "OPEN"[0] == 'O' && "OPEN"[1] == 'P' && "OPEN"[2] == 'E' && "OPEN"[3] == 'N';
      assert "open"[0] == 'o' && "open"[1] == 'p' && "open"[2] == 'e' && "open"[3] == 'n';
    }
    assert forall i | 0 <= i < |s| :: s[i] in s;
  }

  /** A task new to its id: when it is assigned, and every column of its row. */
  lemma AssignWrites(db: Db, a: AssignArgs, now: nat)
    requires a.taskId !in db.tasks
    ensures var r := Assign(db, a, now);
      && (r.Ok? <==>
            && ValidTaskId(a.taskId) && !SaysBlank(a.summary) && a.lane in db.lanes && db.lanes[a.lane].identity.nonce == a.nonce
            && a.taskId in db.sources && SpellsOpen(db.sources[a.taskId].state) && db.sources[a.taskId].status.Created?
            && forall id :: !OpenIn(db, id, a.lane))
      && (r.Ok? ==>
            && a.taskId in r.value.tasks && r.value == PutTask(db, a.taskId, r.value.tasks[a.taskId])
            && var row := r.value.tasks[a.taskId];
            && row.lane == a.lane && row.paneNonce == a.nonce && row.summary == a.summary && row.worktreePath == a.worktree
            && row.paneId == db.lanes[a.lane].identity.paneId && row.status.Created? && row.createdAt == now && row.updatedAt == now
            && row.resultPath.None? && row.resultSha.None? && row.deliveryAttemptedAt.None? && row.deliveredAt.None? && row.acceptedAt.None? && row.completedAt.None?)
  {
    OpenInAnyCase(a.summary);
    if a.taskId in db.sources { OpenInAnyCase(db.sources[a.taskId].state); }
  }

  /** An id already assigned is answered again when lane, nonce and summary agree, and refused otherwise. */
  lemma AssignAgain(db: Db, a: AssignArgs, now: nat)
    requires a.taskId in db.tasks
    ensures var r, row := Assign(db, a, now), db.tasks[a.taskId];
      && (r.Ok? ==> r.value == db)
      && (r.Ok? <==>
            && row.lane == a.lane && row.paneNonce == a.nonce && row.summary == a.summary && ValidTaskId(a.taskId) && !SaysBlank(a.summary)
            && a.lane in db.lanes && db.lanes[a.lane].identity.nonce == a.nonce
            && a.taskId in db.sources && SpellsOpen(db.sources[a.taskId].state) && db.sources[a.taskId].status.Created?)
  {
    OpenInAnyCase(a.summary);
    if a.taskId in db.sources { OpenInAnyCase(db.sources[a.taskId].state); }
  }

  /** What one move does to the row: its status, its own stamp, its clock and nothing else. */
  predicate MovedTo(r: TaskRow, r': TaskRow, m: Move, now: nat) {
    && r'.updatedAt == now
    && match m
       case Attempt => r'.status.DeliveryPending? && r'.deliveryAttemptedAt == Some(now) && r'.deliveredAt == r.deliveredAt && r'.acceptedAt == r.acceptedAt
       case Deliver => r'.status.Delivered? && r'.deliveredAt == Some(now) && r'.deliveryAttemptedAt == r.deliveryAttemptedAt && r'.acceptedAt == r.acceptedAt
       case Accept => r'.status.Accepted? && r'.acceptedAt == Some(now) && r'.deliveryAttemptedAt == r.deliveryAttemptedAt && r'.deliveredAt == r.deliveredAt
  }

  /** The columns no move touches. */
  predicate SameAssignment(r: TaskRow, r': TaskRow) {
    && r'.lane == r.lane && r'.paneNonce == r.paneNonce && r'.paneId == r.paneId && r'.summary == r.summary && r'.createdAt == r.createdAt
    && r'.worktreePath == r.worktreePath && r'.resultPath == r.resultPath && r'.resultSha == r.resultSha
  }

  lemma TransitionWrites(db: Db, id: string, nonce: string, m: Move, now: nat)
    ensures var r := Transition(db, id, nonce, m, now);
      && (r.Ok? <==>
            && id in db.tasks && db.tasks[id].lane in db.lanes && db.lanes[db.tasks[id].lane].identity.nonce == nonce && db.tasks[id].paneNonce == nonce
            && match m
               case Attempt => db.tasks[id].status.Created? || db.tasks[id].status.DeliveryPending?
               case Deliver => db.tasks[id].status.DeliveryPending? || db.tasks[id].status.Delivered?
               case Accept => db.tasks[id].status.Delivered? || db.tasks[id].status.Accepted?)
      && (r.Ok? ==>
            || r.value == db
            || (id in r.value.tasks && r.value == PutTask(db, id, r.value.tasks[id]) && MovedTo(db.tasks[id], r.value.tasks[id], m, now)
                && SameAssignment(db.tasks[id], r.value.tasks[id]) && r.value.tasks[id].completedAt == db.tasks[id].completedAt))
      && (r.Ok? ==> match m
            case Attempt => r.value.tasks[id].status.DeliveryPending?
            case Deliver => r.value.tasks[id].status.Delivered?
            case Accept => r.value.tasks[id].status.Accepted?)
  {
  }

  /** A delivery in doubt becomes what it is reconciled to, whatever the lane is now. */
  lemma ReconcileWrites(db: Db, id: string, nonce: string, delivered: bool, now: nat)
    ensures var r := Reconcile(db, id, nonce, delivered, now);
      && (r.Ok? <==>
            && id in db.tasks && db.tasks[id].paneNonce == nonce
            && (db.tasks[id].status.DeliveryPending? || (if delivered then db.tasks[id].status.Delivered? else db.tasks[id].status.Failed?)))
      && (r.Ok? ==> if delivered then r.value.tasks[id].status.Delivered? else r.value.tasks[id].status.Failed?)
      && (r.Ok? && db.tasks[id].status.DeliveryPending? ==>
            && r.value == PutTask(db, id, r.value.tasks[id]) && SameAssignment(db.tasks[id], r.value.tasks[id]) && r.value.tasks[id].updatedAt == now
            && (if delivered then r.value.tasks[id].deliveredAt == Some(now) && r.value.tasks[id].completedAt == db.tasks[id].completedAt
                else r.value.tasks[id].completedAt == Some(now) && r.value.tasks[id].deliveredAt == db.tasks[id].deliveredAt))
      && (r.Ok? && !db.tasks[id].status.DeliveryPending? ==> r.value == db)
  {
  }

  lemma BackfillWrites(db: Db, id: string, path: string, now: nat)
    ensures var r := BackfillWorktree(db, id, path, now);
      && (r.Ok? <==> path != "" && id in db.tasks && db.tasks[id].status.Complete? && db.tasks[id].worktreePath == "")
      && (r.Ok? ==>
            && r.value == PutTask(db, id, r.value.tasks[id]) && r.value.tasks[id].worktreePath == path && r.value.tasks[id].updatedAt == now
            && r.value.tasks[id].(worktreePath := "", updatedAt := db.tasks[id].updatedAt) == db.tasks[id])
  {
  }

  /* ---- dispatches ---- */

  /** A dispatch whose fields say enough: a known harness, a full lane, and an open source not yet begun. */
  predicate Recordable(d: DispatchArgs) {
    && d.laneArgs.transport.None? && d.laneArgs.harness in {"codex", "copilot", "claude", "pi", "copilot-acp"}
    && d.laneArgs.lane != "" && d.laneArgs.paneId != "" && d.laneArgs.nonce != "" && d.laneArgs.repo != ""
    && d.laneArgs.serverId != "" && d.laneArgs.sessionId != "" && d.laneArgs.command != ""
    && ValidTaskId(d.source.taskId) && d.source.status.Created? && (d.source.kind == "issue" || d.source.kind == "pull")
    && d.source.url != "" && d.source.ref != "" && !SaysBlank(d.source.summary) && SpellsOpen(d.source.state)
    && forall e | e in d.source.evidence :: e != ""
  }

  lemma DispatchArgsAre(d: DispatchArgs)
    ensures DispatchArgsOk(d) <==> Recordable(d)
  {
    HarnessesApart(d.laneArgs.harness);
    OpenInAnyCase(d.source.state);
    OpenInAnyCase(d.source.summary);
  }

  /** The lane is registered already as exactly this incarnation. */
  predicate SameIncarnation(db: Db, a: LaneArgs) {
    && a.lane in db.lanes
    && db.lanes[a.lane].identity == Identity(a.paneId, a.nonce, a.harness, a.repo, a.serverId, a.sessionId, a.command,
                                             if a.harness == "copilot-acp" then "acp" else "send-keys")
  }

  /** What the lane's open task, if any, is in the way of: the same incarnation, or its own delivery in doubt. */
  predicate InTheWay(db: Db, a: LaneArgs, id: string) {
    OpenIn(db, id, a.lane) && (SameIncarnation(db, a) || db.tasks[id].status.DeliveryPending?)
  }

  /**
   When a dispatch under a new id is recorded: its fields say enough, nothing open in its lane is in the way,
   and no open task of another lane works on the same pull.
   */
  lemma DispatchSucceeds(db: Db, d: DispatchArgs, now: nat)
    requires DbOk(db) && d.source.taskId !in db.tasks
    ensures DispatchOk(db, d, now) <==>
      && Recordable(d)
      && (forall id :: !InTheWay(db, d.laneArgs, id))
      && (d.source.kind == "pull" ==> forall other | other in db.sources && db.sources[other].kind == "pull" && db.sources[other].ref == d.source.ref ::
            !Open(db, other) || db.tasks[other].lane == d.laneArgs.lane)
  {
    DispatchArgsAre(d);
    if Recordable(d) {
      HarnessesApart(d.laneArgs.harness);
      var i := IdentityOf(d.laneArgs).value;
      FreedIs(db, d.laneArgs.lane, i, now);
      assert SameIncarnation(db, d.laneArgs) <==> d.laneArgs.lane in db.lanes && !Rebinds(db, d.laneArgs.lane, i);
      var freed := FreeForRebind(db, d.laneArgs.lane, i, now);
      forall p | OpenIn(db, p, d.laneArgs.lane) ensures InTheWay(db, d.laneArgs, p) <==> Open(freed, p) { assert RowOk(db, p); }
      assert Occupant(freed, d.laneArgs.lane).None? <==> forall p :: !OpenIn(freed, p, d.laneArgs.lane);
      if forall p :: !InTheWay(db, d.laneArgs, p) {
        assert forall other :: Open(freed, other) <==> Open(db, other) && db.tasks[other].lane != d.laneArgs.lane;
      }
    }
  }

  /** And when one is taken up again under its own id. */
  lemma DispatchResumesWhen(db: Db, d: DispatchArgs, now: nat)
    requires DbOk(db) && d.source.taskId in db.tasks
    ensures var row := db.tasks[d.source.taskId];
      DispatchOk(db, d, now) <==>
        && Recordable(d)
        && row.lane == d.laneArgs.lane && row.paneNonce == d.laneArgs.nonce && row.summary == d.source.summary
        && (row.status.DeliveryPending? || (row.status.Created? && SameIncarnation(db, d.laneArgs)))
        && (d.source.kind == "pull" ==> forall other | other in db.sources && db.sources[other].kind == "pull" && db.sources[other].ref == d.source.ref ::
              other == d.source.taskId || !Open(db, other))
  {
    DispatchArgsAre(d);
    if Recordable(d) {
      HarnessesApart(d.laneArgs.harness);
      var id, lane, i := d.source.taskId, d.laneArgs.lane, IdentityOf(d.laneArgs).value;
      FreedIs(db, lane, i, now);
      assert RowOk(db, id);
      assert lane in db.lanes ==> (SameIncarnation(db, d.laneArgs) <==> !Rebinds(db, lane, i));
      if OpenIn(db, id, lane) {
        OccupantIs(db, lane, id);
        assert forall other :: OpenIn(db, other, lane) ==> other == id;
      }
    }
  }

  /** What freeing a lane leaves open: everything, or everything outside it. */
  lemma FreedIs(db: Db, lane: string, i: Identity, now: nat)
    requires DbOk(db)
    ensures var freed := FreeForRebind(db, lane, i, now);
      && freed.sources.Keys == db.sources.Keys
      && (forall id | id in db.sources :: freed.sources[id].kind == db.sources[id].kind && freed.sources[id].ref == db.sources[id].ref)
      && (forall id :: Open(freed, id) <==>
            Open(db, id) && (db.tasks[id].lane == lane ==> !Rebinds(db, lane, i) || db.tasks[id].status.DeliveryPending?))
      && (forall id :: OpenIn(freed, id, lane) <==> Open(freed, id) && db.tasks[id].lane == lane)
  {
    var freed := FreeForRebind(db, lane, i, now);
    forall id ensures Open(freed, id) <==> Open(db, id) && (db.tasks[id].lane == lane ==> !Rebinds(db, lane, i) || db.tasks[id].status.DeliveryPending?) {
      if OpenIn(db, id, lane) { OccupantIs(db, lane, id); }
    }
  }

  /** Whether the id is new or resumed, the source and the lane are as the dispatch said. */
  lemma DispatchNames(db: Db, d: DispatchArgs, now: nat)
    requires DispatchOk(db, d, now)
    ensures var db', id, lane := Dispatched(db, d, now), d.source.taskId, d.laneArgs.lane;
      && id in db'.sources && lane in db'.lanes && id in db'.tasks && db'.tasks[id].summary == d.source.summary
      && var source, i := db'.sources[id], db'.lanes[lane].identity;
      && source.kind == d.source.kind && source.url == d.source.url && source.ref == d.source.ref && source.summary == d.source.summary
      && source.state == d.source.state && source.status.Created? && source.evidence == d.source.evidence && source.isReview == d.source.isReview
      && i.paneId == d.laneArgs.paneId && i.nonce == d.laneArgs.nonce && i.harness == d.laneArgs.harness && i.repo == d.laneArgs.repo
      && i.serverId == d.laneArgs.serverId && i.sessionId == d.laneArgs.sessionId && i.command == d.laneArgs.command
      && (d.laneArgs.harnessSessionId != "" ==> db'.lanes[lane].harnessSessionId == d.laneArgs.harnessSessionId)
      && (d.laneArgs.harnessProjectDir != "" ==> db'.lanes[lane].harnessProjectDir == d.laneArgs.harnessProjectDir)
  {
  }

  /** A pull an open task of another lane works on cannot be dispatched under another id. */
  lemma PullIsGuarded(db: Db, d: DispatchArgs, now: nat, held: string)
    requires DbOk(db) && held in db.sources && db.sources[held].kind == "pull" && Open(db, held) && db.tasks[held].lane != d.laneArgs.lane
    requires d.source.kind == "pull" && d.source.ref == db.sources[held].ref && d.source.taskId != held
    ensures !DispatchOk(db, d, now)
  {
    if IdentityOf(d.laneArgs).Ok? {
      var freed := FreeForRebind(db, d.laneArgs.lane, IdentityOf(d.laneArgs).value, now);
      assert freed.tasks[held] == db.tasks[held] && held in freed.sources && freed.sources[held] == db.sources[held];
    }
  }

  /**
   In its own lane it can: the new incarnation cancels it first. With the pull held by this task alone, a fresh
   nonce and a new id, that is exactly what happens unless its delivery is in doubt.
   */
  lemma SameLaneTakesThePullOver(db: Db, d: DispatchArgs, now: nat, held: string)
    requires DbOk(db) && DispatchArgsOk(d) && d.source.taskId !in db.tasks && d.source.kind == "pull"
    requires held in db.sources && db.sources[held].kind == "pull" && db.sources[held].ref == d.source.ref && OpenIn(db, held, d.laneArgs.lane)
    requires d.laneArgs.lane in db.lanes && db.lanes[d.laneArgs.lane].identity.nonce != d.laneArgs.nonce
    requires forall other | other in db.sources && db.sources[other].kind == "pull" && db.sources[other].ref == d.source.ref && Open(db, other) :: other == held
    ensures DispatchOk(db, d, now) <==> !db.tasks[held].status.DeliveryPending?
    ensures DispatchOk(db, d, now) ==> Dispatched(db, d, now).tasks[held].status.Cancelled?
  {
    var lane := d.laneArgs.lane;
    OccupantIs(db, lane, held);
    var freed := FreeForRebind(db, lane, IdentityOf(d.laneArgs).value, now);
    FreshNonceDispatches(db, d, now);
    if !db.tasks[held].status.DeliveryPending? {
      assert freed == Cancel(db, held, now, None, None);
      forall p | OpenIn(db, p, lane) ensures p == held { OccupantIs(db, lane, p); }
      DispatchOrNot(db, d, now, held);
    }
  }

  lemma DispatchOrNot(db: Db, d: DispatchArgs, now: nat, held: string)
    requires DbOk(db) && OpenIn(db, held, d.laneArgs.lane) && d.source.taskId !in db.tasks
    ensures DispatchOk(db, d, now) ==> Dispatched(db, d, now).tasks[held].status.Cancelled?
  {
    if DispatchOk(db, d, now) { DispatchTakesLane(db, d, now); }
  }

  /** What recording a dispatch leaves in all three tables, for an id that had no task. */
  lemma DispatchWrites(db: Db, d: DispatchArgs, now: nat)
    requires DispatchOk(db, d, now) && d.source.taskId !in db.tasks
    ensures var db', id, lane := Dispatched(db, d, now), d.source.taskId, d.laneArgs.lane;
      && id in db'.tasks && id in db'.sources && lane in db'.lanes && db'.events == db.events
      && var row, source, i := db'.tasks[id], db'.sources[id], db'.lanes[lane].identity;
      && row.lane == lane && row.paneNonce == d.laneArgs.nonce && row.paneId == d.laneArgs.paneId && row.summary == d.source.summary
      && row.worktreePath == d.worktree && row.status.Delivered? && row.createdAt == now && row.updatedAt == now
      && row.deliveryAttemptedAt == Some(now) && row.deliveredAt == Some(now) && row.acceptedAt == (if d.accepted then Some(now) else None)
      && row.completedAt.None? && row.resultPath.None? && row.resultSha.None?
      && source.kind == d.source.kind && source.url == d.source.url && source.ref == d.source.ref && source.summary == d.source.summary
      && source.state == d.source.state && source.status.Created? && source.evidence == d.source.evidence && source.isReview == d.source.isReview
      && i.paneId == d.laneArgs.paneId && i.nonce == d.laneArgs.nonce && i.harness == d.laneArgs.harness && i.repo == d.laneArgs.repo
      && i.serverId == d.laneArgs.serverId && i.sessionId == d.laneArgs.sessionId && i.command == d.laneArgs.command
  {
  }

  /** A retry picks up an unconfirmed assignment of the same lane, incarnation and summary, and keeps the stamps it has. */
  lemma DispatchResumes(db: Db, d: DispatchArgs, now: nat)
    requires DbOk(db) && DispatchOk(db, d, now) && d.source.taskId in db.tasks
    ensures var row, row' := db.tasks[d.source.taskId], Dispatched(db, d, now).tasks[d.source.taskId];
      && (row.status.Created? || row.status.DeliveryPending?) && row.lane == d.laneArgs.lane && row.paneNonce == d.laneArgs.nonce && row.summary == d.source.summary
      && row'.status.Delivered? && row'.deliveredAt == Some(now) && SameAssignment(row, row')
      && row'.deliveryAttemptedAt == (if row.status.Created? then Some(now) else row.deliveryAttemptedAt)
      && row'.acceptedAt == (if d.accepted && row.acceptedAt.None? then Some(now) else row.acceptedAt)
  {
  }

  /* ---- results and verdicts ---- */

  /** Not blank, and not over the limit. */
  predicate Storable(result: Bytes) { |result| <= 65536 && exists b | b in result :: b != 32 && !(9 <= b <= 13) }

  lemma StorableIs(result: Bytes)
    ensures ResultAcceptable(result) <==> Storable(result)
  {
    if ResultAcceptable(result) {
      var i :| 0 <= i < |result| && !IsSpaceByte(result[i]);
      assert result[i] in result;
    }
    if Storable(result) {
      var b :| b in result && b != 32 && !(9 <= b <= 13);
      var i :| 0 <= i < |result| && result[i] == b;
      assert !IsSpaceByte(result[i]);
    }
  }

  /** What a completion or a verdict is for. */
  predicate ConcludedBy(v: Verdict, row: TaskRow) {
    match v
    case Completed => row.status.Created? || row.status.DeliveryPending? || row.status.Delivered? || row.status.Accepted? || row.status.Running?
    case Unaccepted => row.status.Delivered? && row.acceptedAt.None?
    case StaleDelivery => row.status.Delivered?
    case StaleAcceptance => row.status.Accepted?
  }

  /**
   When the lane itself completes a task that has no result yet, or a reconciler passes its verdict, and
   what is then in the tables: the final status, the file's digest, the second, and one pending event.
   */
  lemma ConcludeWrites(w: World, a: VerdictArgs, now: nat, digest: Digest)
    requires ValidTaskId(a.taskId) && a.taskId in w.db.tasks && a.nonce == w.db.tasks[a.taskId].paneNonce && Storable(a.result)
    requires w.db.tasks[a.taskId].resultSha.None?
    ensures var (w', r) := Decide(w, a, NoFailpoint, now, digest);
      var id, path := a.taskId, a.taskId + (if a.verdict.Completed? then ".md" else ".reconcile.md");
      && (r.Ok? <==> ConcludedBy(a.verdict, w.db.tasks[id]))
      && path in w'.files && w'.files == w.files[path := w'.files[path]] && w'.files[path] == (if path in w.files then w.files[path] else a.result)
      && (r.Err? ==> w'.db == w.db)
      && (r.Ok? ==>
            && id in w'.db.tasks && w'.db.lanes == w.db.lanes && w'.db.sources == w.db.sources && w'.db.tasks == w.db.tasks[id := w'.db.tasks[id]]
            && var row, row' := w.db.tasks[id], w'.db.tasks[id];
            && (if a.verdict.Completed? then row'.status.Complete? else row'.status.Failed?)
            && row'.resultPath == Some(path) && row'.resultSha == Some(digest(w'.files[path])) && row'.completedAt == Some(now) && row'.updatedAt == now
            && row'.(status := row.status, resultPath := row.resultPath, resultSha := row.resultSha, completedAt := row.completedAt, updatedAt := row.updatedAt) == row)
      && (r.Ok? ==>
            && ("completion:" + id) in w'.db.events && w'.db.events == w.db.events["completion:" + id := w'.db.events["completion:" + id]]
            && (("completion:" + id) !in w.db.events ==>
                  var e := w'.db.events["completion:" + id];
                  e.kind.Completion? && e.taskId == id && e.status.Pending? && e.payloadPath == Some(path) && e.createdAt == now && e.notifiedAt.None? && e.retryAt.None?))
  {
    StorableIs(a.result);
    PathsAre(a.taskId);
    assert w.db.events == (if CompletionKey(a.taskId) in w.db.events then w.db.events[CompletionKey(a.taskId) := w.db.events[CompletionKey(a.taskId)]] else w.db.events);
  }

  /** Another's nonce, an unknown or ill-formed id, or a result that cannot be stored: an error, and no trace. */
  lemma ConcludeRefuses(w: World, a: VerdictArgs, fail: Failpoint, now: nat, digest: Digest)
    requires a.taskId !in w.db.tasks || w.db.tasks[a.taskId].paneNonce != a.nonce || !Storable(a.result) || (!ValidTaskId(a.taskId) && !IsClaim(a.taskId))
    ensures Decide(w, a, fail, now, digest).1.Err? && Decide(w, a, fail, now, digest).0 == w
  {
    StorableIs(a.result);
  }

  /** A task that has its result accepts that result again, and nothing else changes it. */
  lemma ConcludeAgain(w: World, a: VerdictArgs, now: nat, digest: Digest)
    requires Inv(w, digest) && ValidTaskId(a.taskId) && a.taskId in w.db.tasks && a.nonce == w.db.tasks[a.taskId].paneNonce && Storable(a.result)
    requires w.db.tasks[a.taskId].resultSha.Some? && a.verdict.Completed? && w.db.tasks[a.taskId].status.Complete?
    ensures var (w', r) := Decide(w, a, NoFailpoint, now, digest);
      w'.db == w.db && (r.Ok? ==> a.taskId + ".md" in w'.files && w.db.tasks[a.taskId].resultSha == Some(digest(w'.files[a.taskId + ".md"])))
  {
    StorableIs(a.result);
    PathsAre(a.taskId);
  }

  lemma PathsAre(id: string)
    ensures ResultPath(id, "") == id + ".md" && ResultPath(id, ".reconcile") == id + ".reconcile.md"
  {
    assert id + "" + ".md" == id + ".md" && id + ".reconcile" + ".md" == id + (".reconcile" + ".md") && ".reconcile" + ".md" == ".reconcile.md";
  }

  /** A claim passes for a task id where that is allowed, and only then. */
  lemma ClaimsPassWhereAllowed(lane: string, token: string, allowed: bool)
    requires ColonFree(token)
    ensures RequireTaskId(ClaimId(lane, token), allowed) <==> allowed && ValidTaskId(token)
  {
    ClaimIdNames(lane, token);
    if ValidTaskId(ClaimId(lane, token)) { ValidTaskIdColonFree(ClaimId(lane, token)); }
  }

  /** Cancelling by hand: said to have a result or not to, and then recorded with it or without. */
  lemma CancelOpenWrites(w: World, lane: string, result: Option<Bytes>, abandoned: bool, now: nat, digest: Digest, id: string)
    requires DbOk(w.db) && OpenIn(w.db, id, lane)
    ensures var r, path := CancelOpenTask(w, lane, result, abandoned, now, digest), id + ".md";
      && (r.Ok? <==> abandoned == result.None? && (result.Some? ==> Storable(result.value)))
      && (r.Ok? ==>
            && id in r.value.db.tasks && r.value.db.tasks == w.db.tasks[id := r.value.db.tasks[id]] && r.value.db.lanes == w.db.lanes && r.value.db.events == w.db.events
            && (id in w.db.sources ==> id in r.value.db.sources && r.value.db.sources[id].status.Cancelled?))
      && (r.Ok? && result.None? ==> r.value.files == w.files && CancelledWith(w.db.tasks[id], r.value.db.tasks[id], None, None, now))
      && (r.Ok? && result.Some? ==>
            && path in r.value.files && r.value.files == w.files[path := r.value.files[path]] && r.value.files[path] == (if path in w.files then w.files[path] else result.value)
            && CancelledWith(w.db.tasks[id], r.value.db.tasks[id], Some(path), Some(digest(r.value.files[path])), now))
  {
    OccupantIs(w.db, lane, id);
    assert RowOk(w.db, id);
    PathsAre(id);
    if result.Some? { StorableIs(result.value); }
  }

  /* ---- events ---- */

  /** The first sight of a reason raises one pending event about the lane's task; seen again it raises none. */
  lemma ObserveWrites(db: Db, lane: string, nonce: string, reason: string, now: nat, id: string)
    requires OneOpenPerLane(db) && OpenIn(db, id, lane) && lane in db.lanes && db.lanes[lane].identity.nonce == nonce
    ensures var r := ObserveAttention(db, lane, nonce, reason, now);
      var key := if reason == "idle" then "attention:" + id else "attention:" + id + ":" + reason;
      && r.Ok? && r.value == db.(events := r.value.events)
      && (if db.tasks[id].status.Delivered? || db.tasks[id].status.Accepted? || db.tasks[id].status.Running?
          then key in r.value.events && r.value.events == db.events[key := r.value.events[key]] && (key in db.events ==> r.value == db)
          else r.value == db)
      && (r.value != db ==>
            var e := r.value.events[key];
            e.kind.Attention? && e.taskId == id && e.status.Pending? && e.createdAt == now && e.notifiedAt.None? && e.retryAt.None? && e.ackedAt.None?)
  {
    OccupantIs(db, lane, id);
  }

  /** Two reasons of one task are two events. */
  lemma ReasonsAreApart(id: string, r1: string, r2: string)
    requires r1 != r2
    ensures AttentionKey(id, r1) != AttentionKey(id, r2)
  {
    var p := "attention:" + id;
    assert r1 != "idle" ==> AttentionKey(id, r1) == p + (":" + r1) && AttentionKey(id, r1)[|p| + 1..] == r1;
    assert r2 != "idle" ==> AttentionKey(id, r2) == p + (":" + r2) && AttentionKey(id, r2)[|p| + 1..] == r2;
  }

  /** Once notified, an event not yet acknowledged is due again exactly from the given second on. */
  lemma NotifiedComesDueAgain(db: Db, keys: seq<string>, retryAfter: int, now: nat, key: string, at: nat)
    requires MarkNotified(db, keys, retryAfter, now).Ok? && key in keys
    ensures var e, e' := db.events[key], MarkNotified(db, keys, retryAfter, now).value.events[key];
      && key in db.events && (e.status.Acked? ==> e' == e)
      && (!e.status.Acked? ==>
            && e'.status.Notified? && e'.notifiedAt == Some(now)
            && (key in EventsDue(MarkNotified(db, keys, retryAfter, now).value, at) <==> at >= now + retryAfter))
  {
  }

  lemma NotifyTouchesOnlyItsKeys(db: Db, keys: seq<string>, retryAfter: int, now: nat)
    ensures var r := MarkNotified(db, keys, retryAfter, now);
      && (r.Ok? <==> forall k | k in keys :: k in db.events)
      && (r.Ok? ==> r.value == db.(events := r.value.events) && r.value.events.Keys == db.events.Keys)
      && (r.Ok? ==> forall k | k in db.events && k !in keys :: r.value.events[k] == db.events[k])
  {
  }

  /** Acknowledging: all of the keys or none, and never an attention whose task is still open. */
  lemma AckWrites(db: Db, keys: seq<string>, now: nat)
    ensures var r := AckEvents(db, keys, now);
      && (r.Ok? <==> forall k | k in keys :: k in db.events && !(db.events[k].kind.Attention? && Open(db, db.events[k].taskId)))
      && (r.Ok? ==> r.value == db.(events := r.value.events) && r.value.events.Keys == db.events.Keys)
      && (r.Ok? ==> forall k | k in db.events ::
            if k in keys then r.value.events[k].status.Acked? && r.value.events[k].ackedAt == Some(now) && r.value.events[k].retryAt.None?
                              && r.value.events[k].kind == db.events[k].kind && r.value.events[k].taskId == db.events[k].taskId
            else r.value.events[k] == db.events[k])
  {
  }
}
