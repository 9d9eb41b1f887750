/** Any number of dispatchers racing over the same lanes, each killable between any two of its steps. */
module DispatchProtocol {
  import opened Prelude
  import opened Ids
  import opened Tables
  import opened LedgerSpec
  import opened LedgerInvariants
  import opened Lifecycle
  import opened Occupancy
  import opened Columns

  /*
   Reapers and the rest of the estate run beside them. A dispatcher claims a lane, commits the claim, sends
   its brief, and only then records the dispatch; its exit trap releases the claim whatever happened.

   What is assumed of the world: claim tokens hold no colon, two live processes share neither a token nor a
   host and pid, a token is taken up again only once every claim under it is finished or gone, and the
   reaper's liveness test never calls a live process dead.
   */

  datatype Pc = Ready | Claimed | Live | Sent | Gone

  /** `sent` remembers that the brief went out, `task` the id it was recorded under. */
  datatype Proc = Proc(owner: Owner, token: string, lane: string, pc: Pc, alive: bool, sent: bool, task: Option<string>)

  datatype Brief = Brief(lane: string, sender: nat)

  datatype Sys = Sys(w: World, procs: seq<Proc>, sent: seq<Brief>)

  datatype Action =
    | Spawn(owner: Owner, token: string)
    | Claim(p: nat, lane: string, note: string)
    | CommitStep(p: nat)
    | Send(p: nat)
    | Record(p: nat, dispatch: DispatchArgs)
    | Release(p: nat, leave: bool)
    | Kill(p: nat)
    | Reap(host: string, alive: nat -> bool)
    | Env(op: Op)

  const START := Sys(EMPTY, [], [])

  function ClaimOf(p: Proc): string { ClaimId(p.lane, p.token) }

  predicate Running(s: Sys, p: nat, pc: Pc) { p < |s.procs| && s.procs[p].alive && s.procs[p].pc == pc }

  /**
   The other things that happen to a ledger while dispatchers run: a lane registered for the first time
   or again as it is, holds, tasks assigned by the adapters, moves, verdicts and reconciliations of tasks
   that are not claims, and everything about sources and events. Cancelling an open task by hand, rebinding a known lane
   and passing a verdict on a claim are an operator's escapes and are not among them.
   */
  predicate Ordinary(db: Db, op: Op) {
    match op
    case OpRegister(a) => IdentityOf(a).Ok? ==> !Rebinds(db, a.lane, IdentityOf(a).value)
    case OpTransition(id, _, _) => !IsClaim(id)
    case OpReconcile(id, _, _) => !IsClaim(id)
    case OpDecide(a, _) => !IsClaim(a.taskId)
    case OpHold(_, _) => true
    case OpReconstruct(_) => true
    case OpUpdateSource(_, _, _) => true
    case OpAssign(_) => true
    case OpBackfill(_, _) => true
    case OpObserve(_, _, _) => true
    case OpNotify(_, _) => true
    case OpAck(_) => true
    case _ => false
  }

  ghost predicate Enabled(s: Sys, a: Action) {
    match a
    case Spawn(owner, token) =>
      && ValidHost(owner.host) && owner.pid > 0 && ColonFree(token)
      && (forall q | 0 <= q < |s.procs| :: s.procs[q].alive ==> s.procs[q].token != token && s.procs[q].owner != owner)
      && (forall lane :: !Open(s.w.db, ClaimId(lane, token)))
    case Claim(p, _, _) => Running(s, p, Ready)
    case CommitStep(p) => Running(s, p, Pc.Claimed)
    case Send(p) => Running(s, p, Live)
    case Record(p, d) => Running(s, p, Sent) && d.laneArgs.lane == s.procs[p].lane
    case Release(p, _) => p < |s.procs| && s.procs[p].alive
    case Kill(p) => p < |s.procs|
    case Reap(host, alive) => SparesTheLiving(s.procs, host, alive)
    case Env(op) => Ordinary(s.w.db, op)
  }

  /** The ledger operation an action performs, if any. */
  ghost function OpOf(s: Sys, a: Action): Option<Op>
    requires Enabled(s, a)
  {
    match a
    case Claim(p, lane, note) => Some(OpClaim(lane, s.procs[p].token, ClaimSummary(note, Some(s.procs[p].owner))))
    case CommitStep(p) => Some(OpCommit(s.procs[p].lane, s.procs[p].token))
    case Record(_, d) => Some(OpDispatch(d))
    case Release(p, _) => Some(OpRelease(s.procs[p].lane, s.procs[p].token))
    case Reap(host, alive) => Some(OpReap(host, alive))
    case Env(op) => Some(op)
    case _ => None
  }

  /** A process that has just been answered a claim. */
  function AfterClaim(p: Proc, lane: string, claimed: bool): Proc { p.(lane := lane, pc := if claimed then Pc.Claimed else Ready) }

  function AfterCommit(p: Proc, committed: bool): Proc { p.(pc := if committed then Live else Gone) }

  function AfterSend(p: Proc): Proc { p.(pc := Sent, sent := true) }

  function AfterRecord(p: Proc, id: Option<string>): Proc { p.(pc := Gone, task := id) }

  /** The trap releases whatever is still only reserved; the process may then try another lane or leave. */
  function AfterRelease(p: Proc, leave: bool): Proc { p.(pc := if (p.pc.Ready? || p.pc.Claimed?) && !leave then Ready else Gone) }

  ghost function ProcsAfter(s: Sys, a: Action, now: nat): seq<Proc>
    requires Enabled(s, a)
  {
    var db, procs := s.w.db, s.procs;
    match a
    case Spawn(owner, token) => procs + [Proc(owner, token, "", Ready, true, false, None)]
    case Claim(p, lane, note) =>
      procs[p := AfterClaim(procs[p], lane, ClaimLane(db, lane, procs[p].token, ClaimSummary(note, Some(procs[p].owner)), now).1.Claimed?)]
    case CommitStep(p) => procs[p := AfterCommit(procs[p], CommitClaim(db, procs[p].lane, procs[p].token, now).1.Committed?)]
    case Send(p) => procs[p := AfterSend(procs[p])]
    case Record(p, d) => procs[p := AfterRecord(procs[p], if DispatchOk(db, d, now) then Some(d.source.taskId) else None)]
    case Release(p, leave) => procs[p := AfterRelease(procs[p], leave)]
    case Kill(p) => procs[p := procs[p].(alive := false)]
    case _ => procs
  }

  ghost function Next(s: Sys, a: Action, now: nat, digest: Digest): Sys
    requires Enabled(s, a)
  {
    Sys(if OpOf(s, a).Some? then Apply(s.w, OpOf(s, a).value, now, digest) else s.w,
        ProcsAfter(s, a, now),
        if a.Send? then s.sent + [Brief(s.procs[a.p].lane, a.p)] else s.sent)
  }

  /* ---- the invariant ---- */

  /** A committed claim whose brief is out, or about to be, and not yet recorded. */
  predicate Holding(p: Proc) { p.task.None? && (p.pc.Live? || p.sent) }

  /** What happens to the claims under its token still matters to this process, or to the brief it sent. */
  predicate Stake(p: Proc) { p.alive || Holding(p) }

  predicate ProcOk(db: Db, p: Proc) {
    && ColonFree(p.token) && ValidHost(p.owner.host) && p.owner.pid > 0
    && (p.pc.Sent? ==> p.sent) && (p.sent ==> p.pc.Sent? || p.pc.Gone?) && (p.task.Some? ==> p.sent && p.pc.Gone?)
    && (p.pc.Claimed? && p.alive ==> OpenIn(db, ClaimOf(p), p.lane) && db.tasks[ClaimOf(p)].status.Created?)
    && (Holding(p) ==> OpenIn(db, ClaimOf(p), p.lane) && db.tasks[ClaimOf(p)].status.Delivered?)
    && (p.task.Some? ==> ColonFree(p.task.value) && p.task.value in db.tasks && db.tasks[p.task.value].lane == p.lane)
  }

  /** A reservation under a live process's token names it as the owner, and before it commits nothing else is open there. */
  predicate OwnsReservations(db: Db, p: Proc, lane: string) {
    p.alive && ClaimId(lane, p.token) in db.tasks ==>
      var row := db.tasks[ClaimId(lane, p.token)];
      && (row.status.Created? ==> ParseOwner(row.summary) == Some(p.owner))
      && (p.pc.Ready? || p.pc.Claimed? ==> row.status.Created? || Terminal(row.status))
  }

  predicate Distinct(p: Proc, q: Proc) {
    && (Stake(p) && Stake(q) ==> p.token != q.token)
    && (p.alive && q.alive ==> p.owner != q.owner)
    && (p.task.Some? ==> p.task != q.task)
  }

  ghost predicate ProcsOk(db: Db, procs: seq<Proc>) {
    && (forall i | 0 <= i < |procs| :: ProcOk(db, procs[i]))
    && (forall i, lane | 0 <= i < |procs| :: OwnsReservations(db, procs[i], lane))
    && (forall i, j | 0 <= i < |procs| && 0 <= j < |procs| && i != j :: Distinct(procs[i], procs[j]))
  }

  predicate BriefOk(s: Sys, b: Brief) { b.sender < |s.procs| && s.procs[b.sender].sent && s.procs[b.sender].lane == b.lane }

  ghost predicate SysInv(s: Sys, digest: Digest) {
    && Inv(s.w, digest)
    && ProcsOk(s.w.db, s.procs)
    && (forall i | 0 <= i < |s.sent| :: BriefOk(s, s.sent[i]))
    && (forall i, j | 0 <= i < j < |s.sent| :: s.sent[i].sender != s.sent[j].sender)
  }

  /* ---- what it says of briefs ---- */

  /** The task a brief belongs to has ended: it was recorded, and its row is terminal. */
  predicate Over(s: Sys, b: Brief) {
    && b.sender < |s.procs| && s.procs[b.sender].task.Some?
    && s.procs[b.sender].task.value in s.w.db.tasks && Terminal(s.w.db.tasks[s.procs[b.sender].task.value].status)
  }

  /** The open row that keeps a live brief's lane: its claim until it is recorded, its task afterwards. */
  function RowOf(p: Proc): string { if p.task.Some? then p.task.value else ClaimOf(p) }

  lemma LiveBriefHoldsLane(s: Sys, b: Brief, digest: Digest)
    requires SysInv(s, digest) && b in s.sent && !Over(s, b)
    ensures b.sender < |s.procs| && OpenIn(s.w.db, RowOf(s.procs[b.sender]), b.lane)
    ensures Tables.LaneAvailable(s.w.db, b.lane) == Some(false)
  {
    var i :| 0 <= i < |s.sent| && s.sent[i] == b;
    assert BriefOk(s, s.sent[i]);
    assert ProcOk(s.w.db, s.procs[b.sender]);
    var id := RowOf(s.procs[b.sender]);
    assert RowOk(s.w.db, id);
    OccupantIs(s.w.db, b.lane, id);
  }

  /** A live brief's row is not the claim of any process that has yet to send. */
  lemma SenderDiffers(s: Sys, b: Brief, p: nat, digest: Digest)
    requires SysInv(s, digest) && b in s.sent && p < |s.procs| && s.procs[p].alive && !s.procs[p].sent
    ensures b.sender < |s.procs| && RowOf(s.procs[b.sender]) != ClaimOf(s.procs[p])
  {
    var i :| 0 <= i < |s.sent| && s.sent[i] == b;
    assert BriefOk(s, s.sent[i]);
    var me, other := s.procs[p], s.procs[b.sender];
    assert ProcOk(s.w.db, me) && ProcOk(s.w.db, other) && Distinct(me, other);
    ClaimIdInjective(me.lane, me.token, other.lane, other.token);
    ClaimIdNames(me.lane, me.token);
  }

  lemma RowsDiffer(s: Sys, p: nat, q: nat, digest: Digest)
    requires SysInv(s, digest) && p < |s.procs| && q < |s.procs| && p != q && s.procs[p].sent && s.procs[q].sent
    ensures RowOf(s.procs[p]) != RowOf(s.procs[q])
  {
    var a, b := s.procs[p], s.procs[q];
    assert ProcOk(s.w.db, a) && ProcOk(s.w.db, b) && Distinct(a, b);
    ClaimIdInjective(a.lane, a.token, b.lane, b.token);
    ClaimIdNames(a.lane, a.token);
    ClaimIdNames(b.lane, b.token);
  }

  /* ---- what keeps it ---- */

  /** What the tables must not do behind the processes' backs. */
  ghost predicate ClaimsStand(db: Db, db': Db, procs: seq<Proc>) {
    && (forall i | 0 <= i < |procs| :: Held(db, db', procs[i]))
    && (forall i, lane | 0 <= i < |procs| && procs[i].alive :: Undisturbed(db, db', ClaimId(lane, procs[i].token)))
  }

  predicate Held(db: Db, db': Db, p: Proc) {
    && (Holding(p) || (p.pc.Claimed? && p.alive) ==> ClaimOf(p) in db'.tasks && ClaimOf(p) in db.tasks && db'.tasks[ClaimOf(p)] == db.tasks[ClaimOf(p)])
    && (p.task.Some? && p.task.value in db.tasks ==> p.task.value in db'.tasks && db'.tasks[p.task.value].lane == db.tasks[p.task.value].lane)
  }

  predicate Undisturbed(db: Db, db': Db, id: string) {
    id in db'.tasks ==>
      id in db.tasks && (if Terminal(db.tasks[id].status) then db'.tasks[id].status == db.tasks[id].status else db'.tasks[id] == db.tasks[id])
  }

  lemma StandingKeepsProcs(db: Db, db': Db, procs: seq<Proc>)
    requires ProcsOk(db, procs) && ClaimsStand(db, db', procs)
    ensures ProcsOk(db', procs)
  {
    forall i | 0 <= i < |procs| ensures ProcOk(db', procs[i]) {
      assert ProcOk(db, procs[i]) && Held(db, db', procs[i]);
    }
    forall i, lane | 0 <= i < |procs| ensures OwnsReservations(db', procs[i], lane) {
      assert OwnsReservations(db, procs[i], lane);
      if procs[i].alive { assert Undisturbed(db, db', ClaimId(lane, procs[i].token)); }
    }
  }

  /* ---- the environment and the reaper ---- */

  /** Registering a lane as it is, or refusing to, leaves every task alone. */
  lemma SameIdentityTouchesNoTask(w: World, a: LaneArgs, now: nat, digest: Digest)
    requires Ordinary(w.db, OpRegister(a))
    ensures Apply(w, OpRegister(a), now, digest).db.tasks == w.db.tasks
  {
  }

  /** Operations on sources and events leave every task row alone. */
  lemma SidelongTouchesNoTask(w: World, op: Op, now: nat, digest: Digest)
    requires op.OpReconstruct? || op.OpUpdateSource? || op.OpObserve? || op.OpNotify? || op.OpAck?
    ensures Apply(w, op, now, digest).db.tasks == w.db.tasks
  {
  }

  /** An ordinary operation changes no claim that is still open and makes none. */
  lemma OrdinaryLeavesClaim(w: World, op: Op, now: nat, digest: Digest, id: string)
    requires DbOk(w.db) && Ordinary(w.db, op) && IsClaim(id)
    ensures var db' := Apply(w, op, now, digest).db;
      && (Open(w.db, id) ==> id in db'.tasks && db'.tasks[id] == w.db.tasks[id])
      && Undisturbed(w.db, db', id)
  {
    match op
    case OpRegister(a) => SameIdentityTouchesNoTask(w, a, now, digest);
    case OpHold(lane, note) => HoldIdNames(lane, now);
    case OpAssign(a) => if ValidTaskId(a.taskId) { ValidTaskIdColonFree(a.taskId); }
    case OpTransition(task, nonce, m) =>
    case OpReconcile(task, nonce, delivered) =>
    case OpBackfill(task, path) =>
    case OpDecide(a, fail) =>
    case _ => SidelongTouchesNoTask(w, op, now, digest);
  }

  lemma EnvStands(w: World, procs: seq<Proc>, op: Op, now: nat, digest: Digest)
    requires DbOk(w.db) && ProcsOk(w.db, procs) && Ordinary(w.db, op)
    ensures ClaimsStand(w.db, Apply(w, op, now, digest).db, procs)
  {
    var db' := Apply(w, op, now, digest).db;
    forall i | 0 <= i < |procs| ensures Held(w.db, db', procs[i]) {
      var p := procs[i];
      assert ProcOk(w.db, p);
      ClaimIdIsClaim(p.lane, p.token);
      OrdinaryLeavesClaim(w, op, now, digest, ClaimOf(p));
      if p.task.Some? {
        PrefixHasColon(p.task.value);
        StepMonotone(w, op, now, digest, p.task.value);
      }
    }
    forall i, lane | 0 <= i < |procs| ensures Undisturbed(w.db, db', ClaimId(lane, procs[i].token)) {
      ClaimIdIsClaim(lane, procs[i].token);
      OrdinaryLeavesClaim(w, op, now, digest, ClaimId(lane, procs[i].token));
    }
  }

  /** The liveness test never calls a live process of this host dead. */
  predicate SparesTheLiving(procs: seq<Proc>, host: string, alive: nat -> bool) {
    forall q | 0 <= q < |procs| :: procs[q].alive && procs[q].owner.host == host ==> alive(procs[q].owner.pid)
  }

  /** A reaper that never calls a live process dead never takes a live process's claim, nor any committed one. */
  lemma ReapStands(db: Db, procs: seq<Proc>, host: string, alive: nat -> bool)
    requires DbOk(db) && ProcsOk(db, procs) && SparesTheLiving(procs, host, alive)
    ensures ReapClaims(db, host, alive).Ok? ==> ClaimsStand(db, ReapClaims(db, host, alive).value, procs)
  {
    forall i | 0 <= i < |procs| ensures ReapClaims(db, host, alive).Ok? ==> Held(db, ReapClaims(db, host, alive).value, procs[i]) {
      var p := procs[i];
      assert ProcOk(db, p) && OwnsReservations(db, p, p.lane);
      if p.task.Some? && p.task.value in db.tasks {
        assert RowOk(db, p.task.value);
        PrefixHasColon(p.task.value);
        if LikeClaim(p.task.value) { LikeClaimIsClaim(p.task.value, db.tasks[p.task.value].lane); }
      }
    }
  }

  lemma ReapKeepsProcs(db: Db, procs: seq<Proc>, host: string, alive: nat -> bool)
    requires DbOk(db) && ProcsOk(db, procs) && SparesTheLiving(procs, host, alive)
    ensures var r := ReapClaims(db, host, alive); ProcsOk(if r.Ok? then r.value else db, procs)
  {
    ReapStands(db, procs, host, alive);
    if ReapClaims(db, host, alive).Ok? { StandingKeepsProcs(db, ReapClaims(db, host, alive).value, procs); }
  }

  lemma ReapApplied(w: World, host: string, alive: nat -> bool, now: nat, digest: Digest)
    ensures var r := ReapClaims(w.db, host, alive); Apply(w, OpReap(host, alive), now, digest).db == if r.Ok? then r.value else w.db
  {
  }

  lemma EnvKeepsProcs(w: World, procs: seq<Proc>, op: Op, now: nat, digest: Digest)
    requires DbOk(w.db) && ProcsOk(w.db, procs) && Ordinary(w.db, op)
    ensures ProcsOk(Apply(w, op, now, digest).db, procs)
  {
    EnvStands(w, procs, op, now, digest);
    StandingKeepsProcs(w.db, Apply(w, op, now, digest).db, procs);
  }

  /* ---- one dispatcher's own steps ---- */

  /** Writing under one process's claim id disturbs nobody else. */
  lemma OthersStand(db: Db, db': Db, procs: seq<Proc>, p: nat, lane: string)
    requires ProcsOk(db, procs) && p < |procs| && procs[p].alive
    requires forall id :: id != ClaimId(lane, procs[p].token) ==> (id in db'.tasks <==> id in db.tasks)
    requires forall id :: id != ClaimId(lane, procs[p].token) && id in db.tasks ==> db'.tasks[id] == db.tasks[id]
    ensures forall i | 0 <= i < |procs| && i != p :: Held(db, db', procs[i])
    ensures forall i, l | 0 <= i < |procs| && procs[i].alive && (i != p || l != lane) :: Undisturbed(db, db', ClaimId(l, procs[i].token))
  {
    forall i | 0 <= i < |procs| && i != p ensures Held(db, db', procs[i]) {
      assert ProcOk(db, procs[i]) && ProcOk(db, procs[p]) && Distinct(procs[i], procs[p]);
      ClaimIdInjective(procs[i].lane, procs[i].token, lane, procs[p].token);
      ClaimIdNames(lane, procs[p].token);
    }
    forall i, l | 0 <= i < |procs| && procs[i].alive && (i != p || l != lane) ensures Undisturbed(db, db', ClaimId(l, procs[i].token)) {
      assert ProcOk(db, procs[i]) && ProcOk(db, procs[p]);
      if i != p { assert Distinct(procs[i], procs[p]); }
      ClaimIdInjective(l, procs[i].token, lane, procs[p].token);
    }
  }

  /** The rest of the processes after one of them has moved and written at most under its own claim on `lane`. */
  lemma MoveKeepsProcs(db: Db, db': Db, procs: seq<Proc>, p: nat, next: Proc, lane: string)
    requires ProcsOk(db, procs) && p < |procs|
    requires next.token == procs[p].token && next.owner == procs[p].owner && (next.alive ==> procs[p].alive)
    requires next.pc.Ready? || next.pc.Claimed? ==> procs[p].pc.Ready? || procs[p].pc.Claimed?
    requires Stake(next) ==> Stake(procs[p])
    requires ProcOk(db', next) && OwnsReservations(db', next, lane)
    requires forall i | 0 <= i < |procs| && i != p :: Held(db, db', procs[i])
    requires forall i, l | 0 <= i < |procs| && procs[i].alive && (i != p || l != lane) :: Undisturbed(db, db', ClaimId(l, procs[i].token))
    requires next.task.None? || next.task == procs[p].task || next.task.value !in db.tasks
    ensures ProcsOk(db', procs[p := next])
  {
    var procs' := procs[p := next];
    forall i | 0 <= i < |procs'| ensures ProcOk(db', procs'[i]) {
      if i != p { assert ProcOk(db, procs[i]) && Held(db, db', procs[i]); }
    }
    forall i, l | 0 <= i < |procs'| ensures OwnsReservations(db', procs'[i], l) {
      assert OwnsReservations(db, procs[i], l);
      if procs'[i].alive && (i != p || l != lane) { assert Undisturbed(db, db', ClaimId(l, procs[i].token)); }
    }
    forall i, j | 0 <= i < |procs'| && 0 <= j < |procs'| && i != j ensures Distinct(procs'[i], procs'[j]) {
      assert Distinct(procs[i], procs[j]);
      assert ProcOk(db, procs[i]) && ProcOk(db, procs[j]);
    }
  }

  /** What a claim leaves under its own id. */
  lemma ClaimedRow(db: Db, lane: string, token: string, summary: string, now: nat)
    requires DbOk(db) && ColonFree(token) && (Open(db, ClaimId(lane, token)) ==> db.tasks[ClaimId(lane, token)].status.Created?)
    ensures var (db', reply) := ClaimLane(db, lane, token, summary, now);
      var id := ClaimId(lane, token);
      && (reply.Claimed? ==> OpenIn(db', id, lane) && db'.tasks[id].status.Created?)
      && (id in db'.tasks ==>
           (id in db.tasks && db'.tasks[id] == db.tasks[id]) || (db'.tasks[id].status.Created? && db'.tasks[id].summary == summary))
  {
    if lane in db.lanes { ClaimedIffSoleOwner(db, lane, token, summary, now); }
  }

  /** A process that holds nothing, given a lane under a claim it owns. */
  lemma ClaimerIsOk(db: Db, db': Db, me: Proc, next: Proc)
    requires ProcOk(db, me) && me.pc.Ready?
    requires next == me.(lane := next.lane, pc := next.pc) && (next.pc.Ready? || next.pc.Claimed?)
    requires next.pc.Claimed? ==> OpenIn(db', ClaimOf(next), next.lane) && db'.tasks[ClaimOf(next)].status.Created?
    ensures ProcOk(db', next)
  {
  }

  lemma ClaimTouchesOneRow(db: Db, lane: string, token: string, summary: string, now: nat, other: string)
    requires other != ClaimId(lane, token)
    ensures var db' := ClaimLane(db, lane, token, summary, now).0;
      (other in db'.tasks <==> other in db.tasks) && (other in db.tasks ==> db'.tasks[other] == db.tasks[other])
  {
  }

  lemma ClaimKeepsProcs(db: Db, procs: seq<Proc>, p: nat, lane: string, note: string, now: nat)
    requires DbOk(db) && ProcsOk(db, procs) && p < |procs| && procs[p].pc.Ready? && procs[p].alive
    ensures var (db', reply) := ClaimLane(db, lane, procs[p].token, ClaimSummary(note, Some(procs[p].owner)), now);
      ProcsOk(db', procs[p := AfterClaim(procs[p], lane, reply.Claimed?)])
  {
    var me := procs[p];
    var summary := ClaimSummary(note, Some(me.owner));
    var (db', reply) := ClaimLane(db, lane, me.token, summary, now);
    assert ProcOk(db, me) && OwnsReservations(db, me, lane);
    forall other | other != ClaimId(lane, me.token)
      ensures (other in db'.tasks <==> other in db.tasks) && (other in db.tasks ==> db'.tasks[other] == db.tasks[other])
    {
      ClaimTouchesOneRow(db, lane, me.token, summary, now, other);
    }
    OthersStand(db, db', procs, p, lane);
    ClaimedRow(db, lane, me.token, summary, now);
    OwnerRoundTrip(note, me.owner);
    ClaimerIsOk(db, db', me, AfterClaim(me, lane, reply.Claimed?));
    MoveKeepsProcs(db, db', procs, p, AfterClaim(me, lane, reply.Claimed?), lane);
  }

  lemma CommittedRow(db: Db, lane: string, token: string, now: nat)
    requires OpenIn(db, ClaimId(lane, token), lane) && db.tasks[ClaimId(lane, token)].status.Created?
    ensures var (db', reply) := CommitClaim(db, lane, token, now);
      reply.Committed? && OpenIn(db', ClaimId(lane, token), lane) && db'.tasks[ClaimId(lane, token)].status.Delivered?
  {
  }

  lemma CommitterIsOk(db: Db, db': Db, me: Proc)
    requires ProcOk(db, me) && me.pc.Claimed? && me.alive
    requires OpenIn(db', ClaimOf(me), me.lane) && db'.tasks[ClaimOf(me)].status.Delivered?
    ensures ProcOk(db', me.(pc := Live)) && OwnsReservations(db', me.(pc := Live), me.lane)
  {
  }

  /** A live process's reserved claim always commits: nothing could have taken it. */
  lemma CommitKeepsProcs(db: Db, procs: seq<Proc>, p: nat, now: nat)
    requires ProcsOk(db, procs) && p < |procs| && procs[p].pc.Claimed? && procs[p].alive
    ensures var (db', reply) := CommitClaim(db, procs[p].lane, procs[p].token, now);
      reply.Committed? && ProcsOk(db', procs[p := AfterCommit(procs[p], true)])
  {
    var me := procs[p];
    assert ProcOk(db, me);
    var (db', reply) := CommitClaim(db, me.lane, me.token, now);
    OthersStand(db, db', procs, p, me.lane);
    CommittedRow(db, me.lane, me.token, now);
    CommitterIsOk(db, db', me);
    MoveKeepsProcs(db, db', procs, p, AfterCommit(me, true), me.lane);
  }

  /** Releasing takes back at most this process's own reservation. */
  lemma ReleaserIsOk(db: Db, db': Db, me: Proc, next: Proc)
    requires ProcOk(db, me) && OwnsReservations(db, me, me.lane) && next == me.(pc := next.pc)
    requires next.pc.Gone? || (next.pc.Ready? && (me.pc.Ready? || me.pc.Claimed?))
    requires db' == db || (OpenIn(db, ClaimOf(me), me.lane) && db.tasks[ClaimOf(me)].status.Created? && db' == db.(tasks := db.tasks - {ClaimOf(me)}))
    ensures ProcOk(db', next) && OwnsReservations(db', next, me.lane)
  {
    ClaimIdNames(me.lane, me.token);
  }

  lemma ReleaseKeepsProcs(db: Db, procs: seq<Proc>, p: nat, leave: bool)
    requires ProcsOk(db, procs) && p < |procs| && procs[p].alive
    ensures var r := ReleaseClaim(db, procs[p].lane, procs[p].token);
      ProcsOk(if r.Ok? then r.value.0 else db, procs[p := AfterRelease(procs[p], leave)])
  {
    var me := procs[p];
    assert ProcOk(db, me) && OwnsReservations(db, me, me.lane);
    var r := ReleaseClaim(db, me.lane, me.token);
    var db' := if r.Ok? then r.value.0 else db;
    OthersStand(db, db', procs, p, me.lane);
    ReleaserIsOk(db, db', me, AfterRelease(me, leave));
    MoveKeepsProcs(db, db', procs, p, AfterRelease(me, leave), me.lane);
  }

  /** Recording over the lane's own committed claim can only be a new task that cancels that claim. */
  lemma DispatchFreesClaim(db: Db, d: DispatchArgs, now: nat, mine: string)
    requires DbOk(db) && DispatchOk(db, d, now) && OpenIn(db, mine, d.laneArgs.lane) && IsClaim(mine)
    ensures d.source.taskId !in db.tasks && ColonFree(d.source.taskId) && mine != d.source.taskId
    ensures FreeForRebind(db, d.laneArgs.lane, IdentityOf(d.laneArgs).value, now) == Cancel(db, mine, now, None, None)
  {
    var lane, id := d.laneArgs.lane, d.source.taskId;
    OccupantIs(db, lane, mine);
    ValidTaskIdColonFree(id);
    var freed := FreeForRebind(db, lane, IdentityOf(d.laneArgs).value, now);
    assert freed == db || freed == Cancel(db, mine, now, None, None);
    if id in db.tasks { assert OpenIn(db, id, lane); }
    assert freed == db ==> OpenIn(freed, mine, lane);
  }

  lemma DispatchOverClaim(db: Db, d: DispatchArgs, now: nat, mine: string)
    requires DbOk(db) && DispatchOk(db, d, now) && OpenIn(db, mine, d.laneArgs.lane) && IsClaim(mine)
    ensures var db', id := Dispatched(db, d, now), d.source.taskId;
      && id !in db.tasks && ColonFree(id) && mine != id
      && db'.tasks.Keys == db.tasks.Keys + {id}
      && db'.tasks[id].lane == d.laneArgs.lane && db'.tasks[mine].status.Cancelled?
      && forall other :: other in db.tasks && other != mine ==> db'.tasks[other] == db.tasks[other]
  {
    DispatchFreesClaim(db, d, now, mine);
  }

  /**
   Recording a dispatch takes the lane from the recorder's own claim and from nobody else: apart from
   that claim and the new task, no row changes.
   */
  lemma RecordTakesOwnClaim(db: Db, me: Proc, d: DispatchArgs, now: nat)
    requires DbOk(db) && ProcOk(db, me) && me.pc.Sent? && d.laneArgs.lane == me.lane && DispatchOk(db, d, now)
    ensures var db', mine, id := Dispatched(db, d, now), ClaimOf(me), d.source.taskId;
      && id !in db.tasks && ColonFree(id) && mine != id
      && SoleOpen(db, me.lane, mine) && SoleOpen(db', me.lane, id) && db'.tasks[id].lane == me.lane
      && mine in db'.tasks && db'.tasks[mine].status.Cancelled?
      && db'.tasks.Keys == db.tasks.Keys + {id}
      && forall other :: other in db.tasks && other != mine ==> db'.tasks[other] == db.tasks[other]
  {
    ClaimIdIsClaim(me.lane, me.token);
    DispatchOverClaim(db, d, now, ClaimOf(me));
    DispatchTakesLane(db, d, now);
  }

  /** Cancelling one's own claim and adding a task under a plain id is seen by nobody else. */
  lemma OwnClaimLeavesOthers(db: Db, db': Db, procs: seq<Proc>, p: nat, id: string)
    requires ProcsOk(db, procs) && p < |procs| && procs[p].alive && ColonFree(id) && id !in db.tasks
    requires db'.tasks.Keys == db.tasks.Keys + {id}
    requires forall other :: other in db.tasks && other != ClaimOf(procs[p]) ==> db'.tasks[other] == db.tasks[other]
    ensures forall i | 0 <= i < |procs| && i != p :: Held(db, db', procs[i])
    ensures forall i, l | 0 <= i < |procs| && procs[i].alive && (i != p || l != procs[p].lane) :: Undisturbed(db, db', ClaimId(l, procs[i].token))
  {
    var me := procs[p];
    assert ProcOk(db, me);
    ClaimIdNames(me.lane, me.token);
    forall i | 0 <= i < |procs| && i != p ensures Held(db, db', procs[i]) {
      assert ProcOk(db, procs[i]) && Distinct(procs[i], me);
      ClaimIdInjective(procs[i].lane, procs[i].token, me.lane, me.token);
    }
    forall i, l | 0 <= i < |procs| && procs[i].alive && (i != p || l != me.lane) ensures Undisturbed(db, db', ClaimId(l, procs[i].token)) {
      assert ProcOk(db, procs[i]) && (i != p ==> Distinct(procs[i], me));
      ClaimIdInjective(l, procs[i].token, me.lane, me.token);
      ClaimIdNames(l, procs[i].token);
    }
  }

  lemma RecorderIsOk(db: Db, db': Db, me: Proc, id: string)
    requires ProcOk(db, me) && me.pc.Sent? && ColonFree(id) && id in db'.tasks && db'.tasks[id].lane == me.lane
    requires ClaimOf(me) in db'.tasks && db'.tasks[ClaimOf(me)].status.Cancelled?
    ensures ProcOk(db', AfterRecord(me, Some(id))) && OwnsReservations(db', AfterRecord(me, Some(id)), me.lane)
  {
  }

  lemma RecordKeepsProcs(db: Db, procs: seq<Proc>, p: nat, d: DispatchArgs, now: nat)
    requires DbOk(db) && ProcsOk(db, procs) && p < |procs| && procs[p].pc.Sent? && procs[p].alive && d.laneArgs.lane == procs[p].lane && DispatchOk(db, d, now)
    ensures ProcsOk(Dispatched(db, d, now), procs[p := AfterRecord(procs[p], Some(d.source.taskId))])
  {
    var me, db' := procs[p], Dispatched(db, d, now);
    assert ProcOk(db, me);
    RecordTakesOwnClaim(db, me, d, now);
    OwnClaimLeavesOthers(db, db', procs, p, d.source.taskId);
    RecorderIsOk(db, db', me, d.source.taskId);
    MoveKeepsProcs(db, db', procs, p, AfterRecord(me, Some(d.source.taskId)), me.lane);
  }

  /** Recording, whether or not it succeeds. */
  lemma RecordStepKeepsProcs(w: World, procs: seq<Proc>, p: nat, d: DispatchArgs, now: nat, digest: Digest)
    requires DbOk(w.db) && ProcsOk(w.db, procs) && p < |procs| && procs[p].pc.Sent? && procs[p].alive && d.laneArgs.lane == procs[p].lane
    ensures ProcsOk(Apply(w, OpDispatch(d), now, digest).db,
                    procs[p := AfterRecord(procs[p], if DispatchOk(w.db, d, now) then Some(d.source.taskId) else None)])
  {
    if DispatchOk(w.db, d, now) { RecordKeepsProcs(w.db, procs, p, d, now); }
    else { QuietKeepsProcs(w.db, procs, p, AfterRecord(procs[p], None)); }
  }

  lemma ReleaseStepKeepsProcs(w: World, procs: seq<Proc>, p: nat, leave: bool, now: nat, digest: Digest)
    requires ProcsOk(w.db, procs) && p < |procs| && procs[p].alive
    ensures ProcsOk(Apply(w, OpRelease(procs[p].lane, procs[p].token), now, digest).db, procs[p := AfterRelease(procs[p], leave)])
  {
    ReleaseKeepsProcs(w.db, procs, p, leave);
  }

  /** A process that moves without touching a table. */
  lemma QuietKeepsProcs(db: Db, procs: seq<Proc>, p: nat, next: Proc)
    requires ProcsOk(db, procs) && p < |procs|
    requires || (next == AfterSend(procs[p]) && procs[p].pc.Live?)
             || (next == AfterRecord(procs[p], None) && procs[p].pc.Sent?)
             || next == procs[p].(alive := false)
    ensures ProcsOk(db, procs[p := next])
  {
    assert ProcOk(db, procs[p]) && OwnsReservations(db, procs[p], procs[p].lane);
    StandsStill(db, procs);
    MoveKeepsProcs(db, db, procs, p, next, procs[p].lane);
  }

  lemma StandsStill(db: Db, procs: seq<Proc>)
    requires ProcsOk(db, procs)
    ensures ClaimsStand(db, db, procs)
  {
    forall i | 0 <= i < |procs| ensures Held(db, db, procs[i]) { assert ProcOk(db, procs[i]); }
  }

  lemma SpawnKeepsProcs(s: Sys, owner: Owner, token: string)
    requires ProcsOk(s.w.db, s.procs) && Enabled(s, Spawn(owner, token))
    ensures ProcsOk(s.w.db, s.procs + [Proc(owner, token, "", Ready, true, false, None)])
  {
    var db, procs' := s.w.db, s.procs + [Proc(owner, token, "", Ready, true, false, None)];
    forall i | 0 <= i < |procs'| ensures ProcOk(db, procs'[i]) {
      if i < |s.procs| { assert ProcOk(db, s.procs[i]); }
    }
    forall i, lane | 0 <= i < |procs'| ensures OwnsReservations(db, procs'[i], lane) {
      if i < |s.procs| { assert OwnsReservations(db, s.procs[i], lane); }
    }
    forall i, j | 0 <= i < |procs'| && 0 <= j < |procs'| && i != j ensures Distinct(procs'[i], procs'[j]) {
      if i < |s.procs| && j < |s.procs| { assert Distinct(s.procs[i], s.procs[j]); }
    }
  }

  predicate Early(a: Action) { a.Spawn? || a.Claim? || a.CommitStep? || a.Send? || a.Kill? }

  lemma EarlyKeepsProcs(s: Sys, a: Action, now: nat, digest: Digest)
    requires DbOk(s.w.db) && ProcsOk(s.w.db, s.procs) && Enabled(s, a) && Early(a)
    ensures ProcsOk(Next(s, a, now, digest).w.db, ProcsAfter(s, a, now))
  {
    var db, procs := s.w.db, s.procs;
    match a
    case Spawn(owner, token) => SpawnKeepsProcs(s, owner, token);
    case Claim(p, lane, note) => ClaimKeepsProcs(db, procs, p, lane, note, now);
    case CommitStep(p) => CommitKeepsProcs(db, procs, p, now);
    case Send(p) => QuietKeepsProcs(db, procs, p, AfterSend(procs[p]));
    case Kill(p) => QuietKeepsProcs(db, procs, p, procs[p].(alive := false));
  }

  /** Every step, of every process, keeps what the processes rely on. */
  lemma ProcsKeep(s: Sys, a: Action, now: nat, digest: Digest)
    requires DbOk(s.w.db) && ProcsOk(s.w.db, s.procs) && Enabled(s, a)
    ensures ProcsOk(Next(s, a, now, digest).w.db, ProcsAfter(s, a, now))
  {
    if Early(a) { EarlyKeepsProcs(s, a, now, digest); }
    else {
      match a
      case Record(p, d) => RecordStepKeepsProcs(s.w, s.procs, p, d, now, digest);
      case Release(p, leave) => ReleaseStepKeepsProcs(s.w, s.procs, p, leave, now, digest);
      case Reap(host, alive) =>
        ReapKeepsProcs(s.w.db, s.procs, host, alive);
        ReapApplied(s.w, host, alive, now, digest);
      case Env(op) => EnvKeepsProcs(s.w, s.procs, op, now, digest);
    }
  }

  lemma NextKeeps(s: Sys, a: Action, now: nat, digest: Digest)
    requires SysInv(s, digest) && Enabled(s, a)
    ensures SysInv(Next(s, a, now, digest), digest)
  {
    ProcsKeep(s, a, now, digest);
    BriefsKeep(s, a, now, digest);
    if OpOf(s, a).Some? {
      if a.Claim? { assert ProcOk(s.w.db, s.procs[a.p]); }
      ApplyKeeps(s.w, OpOf(s, a).value, now, digest);
    }
  }

  /** Briefs are never unsent, and no process sends twice. */
  lemma BriefsKeep(s: Sys, a: Action, now: nat, digest: Digest)
    requires SysInv(s, digest) && Enabled(s, a)
    ensures var s' := Next(s, a, now, digest);
      && (forall i | 0 <= i < |s'.sent| :: BriefOk(s', s'.sent[i]))
      && (forall i, j | 0 <= i < j < |s'.sent| :: s'.sent[i].sender != s'.sent[j].sender)
  {
    var s' := Next(s, a, now, digest);
    forall i | 0 <= i < |s'.sent| ensures BriefOk(s', s'.sent[i]) {
      if i < |s.sent| {
        assert BriefOk(s, s.sent[i]);
        assert ProcOk(s.w.db, s.procs[s.sent[i].sender]);
      }
    }
    forall i, j | 0 <= i < j < |s'.sent| ensures s'.sent[i].sender != s'.sent[j].sender {
      assert BriefOk(s, s.sent[i]);
      if j == |s.sent| { assert ProcOk(s.w.db, s.procs[s'.sent[j].sender]); }
    }
  }

  /* ---- runs ---- */

  ghost predicate IsRun(states: seq<Sys>, actions: seq<(Action, nat)>, digest: Digest) {
    && |states| == |actions| + 1 && states[0] == START
    && forall i | 0 <= i < |actions| :: Enabled(states[i], actions[i].0) && states[i + 1] == Next(states[i], actions[i].0, actions[i].1, digest)
  }

  lemma {:induction false} RunKeeps(states: seq<Sys>, actions: seq<(Action, nat)>, digest: Digest, n: nat)
    requires IsRun(states, actions, digest) && n < |states|
    ensures SysInv(states[n], digest)
  {
    if n > 0 {
      RunKeeps(states, actions, digest, n - 1);
      NextKeeps(states[n - 1], actions[n - 1].0, actions[n - 1].1, digest);
    }
  }

  /**
   Never two live briefs. Over every interleaving, when a dispatcher sends into a lane, every brief ever
   sent there before belongs to a task that is already terminal.
   */
  lemma NeverTwoLiveBriefs(states: seq<Sys>, actions: seq<(Action, nat)>, digest: Digest, n: nat, b: Brief)
    requires IsRun(states, actions, digest) && n < |actions| && actions[n].0.Send?
    requires b in states[n].sent && b.lane == states[n].procs[actions[n].0.p].lane
    ensures Over(states[n], b)
  {
    RunKeeps(states, actions, digest, n);
    var s, p := states[n], actions[n].0.p;
    var me := s.procs[p];
    assert ProcOk(s.w.db, me);
    if !Over(s, b) {
      LiveBriefHoldsLane(s, b, digest);
      SenderDiffers(s, b, p, digest);
      assert false;
    }
  }

  /** In every reachable state a lane carries at most one live brief, and while it does it never reads free. */
  lemma OneLiveBriefPerLane(states: seq<Sys>, actions: seq<(Action, nat)>, digest: Digest, n: nat, i: nat, j: nat)
    requires IsRun(states, actions, digest) && n < |states|
    requires i < j < |states[n].sent| && states[n].sent[i].lane == states[n].sent[j].lane
    ensures Over(states[n], states[n].sent[i]) || Over(states[n], states[n].sent[j])
  {
    RunKeeps(states, actions, digest, n);
    var s := states[n];
    var a, b := s.sent[i], s.sent[j];
    if !Over(s, a) && !Over(s, b) {
      LiveBriefHoldsLane(s, a, digest);
      LiveBriefHoldsLane(s, b, digest);
      RowsDiffer(s, a.sender, b.sender, digest);
      assert false;
    }
  }

  /* ---- and it gets somewhere ---- */

  lemma ClaimingFreeLane(s: Sys, p: nat, lane: string, note: string, now: nat, digest: Digest)
    requires SysInv(s, digest) && Running(s, p, Ready) && lane in s.w.db.lanes && forall id :: !OpenIn(s.w.db, id, lane)
    ensures Enabled(s, Claim(p, lane, note))
    ensures var s', id := Next(s, Claim(p, lane, note), now, digest), ClaimId(lane, s.procs[p].token);
      && Running(s', p, Pc.Claimed) && s'.procs[p].lane == lane && s'.procs[p].token == s.procs[p].token && s'.sent == s.sent
      && id in s'.w.db.tasks && s'.w.db == PutTask(s.w.db, id, s'.w.db.tasks[id])
  {
    assert ProcOk(s.w.db, s.procs[p]);
    ClaimWrites(s.w.db, lane, s.procs[p].token, ClaimSummary(note, Some(s.procs[p].owner)), now);
  }

  lemma CommittingOwnClaim(s: Sys, p: nat, now: nat, digest: Digest)
    requires SysInv(s, digest) && Running(s, p, Pc.Claimed)
    ensures Enabled(s, CommitStep(p))
    ensures var s', id, lane := Next(s, CommitStep(p), now, digest), ClaimOf(s.procs[p]), s.procs[p].lane;
      && Running(s', p, Live) && s'.procs[p].lane == lane && ClaimOf(s'.procs[p]) == id && s'.sent == s.sent
      && id in s'.w.db.tasks && s'.w.db == PutTask(s.w.db, id, s'.w.db.tasks[id])
      && OpenIn(s'.w.db, id, lane) && s'.w.db.tasks[id].status.Delivered?
  {
    assert ProcOk(s.w.db, s.procs[p]);
    CommitWrites(s.w.db, s.procs[p].lane, s.procs[p].token, now);
  }

  /** Over its own committed claim a new pane's dispatch of a new task is recorded, unless its pull is taken. */
  lemma RecordingGoesThrough(db: Db, d: DispatchArgs, now: nat, mine: string)
    requires DbOk(db) && Recordable(d) && d.source.taskId !in db.tasks
    requires d.laneArgs.lane in db.lanes && db.lanes[d.laneArgs.lane].identity.nonce != d.laneArgs.nonce
    requires OpenIn(db, mine, d.laneArgs.lane) && db.tasks[mine].status.Delivered?
    requires d.source.kind == "pull" ==> !PullHeld(db, d.source.taskId, d.source.ref)
    ensures DispatchOk(db, d, now)
  {
    OccupantIs(db, d.laneArgs.lane, mine);
    forall id ensures !InTheWay(db, d.laneArgs, id) {
      if OpenIn(db, id, d.laneArgs.lane) { OccupantIs(db, d.laneArgs.lane, id); }
    }
    DispatchSucceeds(db, d, now);
  }

  /** A claim is no source's task: it neither takes a task's id nor makes a pull look taken. */
  lemma ClaimHoldsNoPull(db: Db, db': Db, lane: string, token: string, id: string, ref: string)
    requires DbOk(db) && ColonFree(token) && ClaimId(lane, token) in db'.tasks
    requires db' == PutTask(db, ClaimId(lane, token), db'.tasks[ClaimId(lane, token)])
    requires ValidTaskId(id) && id !in db.tasks
    ensures id !in db'.tasks && (PullHeld(db', id, ref) ==> PullHeld(db, id, ref))
  {
    var claim := ClaimId(lane, token);
    ClaimIdNames(lane, token);
    ValidTaskIdColonFree(id);
    if claim in db.sources { ValidTaskIdColonFree(claim); }
  }

  ghost predicate Step(s: Sys, a: Action, now: nat, digest: Digest, s': Sys) { Enabled(s, a) && s' == Next(s, a, now, digest) }

  lemma ClaimsAndCommits(s: Sys, p: nat, lane: string, note: string, now: nat, digest: Digest) returns (s1: Sys, s2: Sys)
    requires SysInv(s, digest) && Running(s, p, Ready) && lane in s.w.db.lanes && forall id :: !OpenIn(s.w.db, id, lane)
    ensures Step(s, Claim(p, lane, note), now, digest, s1) && Step(s1, CommitStep(p), now, digest, s2)
    ensures SysInv(s2, digest) && Running(s2, p, Live) && s2.procs[p].lane == lane && s2.sent == s.sent && s2.procs[p].token == s.procs[p].token
    ensures var claim := ClaimId(lane, s.procs[p].token); claim in s2.w.db.tasks && s2.w.db == PutTask(s.w.db, claim, s2.w.db.tasks[claim])
  {
    ClaimingFreeLane(s, p, lane, note, now, digest);
    NextKeeps(s, Claim(p, lane, note), now, digest);
    s1 := Next(s, Claim(p, lane, note), now, digest);
    CommittingOwnClaim(s1, p, now, digest);
    NextKeeps(s1, CommitStep(p), now, digest);
    s2 := Next(s1, CommitStep(p), now, digest);
  }

  lemma Sends(s: Sys, p: nat, now: nat, digest: Digest) returns (s': Sys)
    requires SysInv(s, digest) && Running(s, p, Live)
    ensures Step(s, Send(p), now, digest, s') && SysInv(s', digest) && Running(s', p, Sent) && s'.w == s.w
    ensures s'.procs[p].lane == s.procs[p].lane && s'.sent == s.sent + [Brief(s.procs[p].lane, p)]
  {
    NextKeeps(s, Send(p), now, digest);
    s' := Next(s, Send(p), now, digest);
  }

  lemma Records(s: Sys, p: nat, d: DispatchArgs, now: nat, digest: Digest) returns (s': Sys)
    requires SysInv(s, digest) && Running(s, p, Sent) && s.procs[p].lane == d.laneArgs.lane
    requires Recordable(d) && d.source.taskId !in s.w.db.tasks
    requires d.laneArgs.lane in s.w.db.lanes && s.w.db.lanes[d.laneArgs.lane].identity.nonce != d.laneArgs.nonce
    requires d.source.kind == "pull" ==> !PullHeld(s.w.db, d.source.taskId, d.source.ref)
    ensures Step(s, Record(p, d), now, digest, s')
    ensures p < |s'.procs| && s'.procs[p].task == Some(d.source.taskId) && s'.sent == s.sent
    ensures OpenIn(s'.w.db, d.source.taskId, d.laneArgs.lane)
    ensures s'.w.db.tasks[d.source.taskId].status.Delivered? && s'.w.db.tasks[d.source.taskId].paneNonce == d.laneArgs.nonce
  {
    assert ProcOk(s.w.db, s.procs[p]);
    RecordingGoesThrough(s.w.db, d, now, ClaimOf(s.procs[p]));
    RecordedRow(s.w, d, now, digest);
    s' := Next(s, Record(p, d), now, digest);
  }

  lemma RecordedRow(w: World, d: DispatchArgs, now: nat, digest: Digest)
    requires DispatchOk(w.db, d, now) && d.source.taskId !in w.db.tasks
    ensures var db', id := Apply(w, OpDispatch(d), now, digest).db, d.source.taskId;
      OpenIn(db', id, d.laneArgs.lane) && db'.tasks[id].status.Delivered? && db'.tasks[id].paneNonce == d.laneArgs.nonce
  {
    DispatchWrites(w.db, d, now);
  }

  /**
   What the guarantee is worth: from every reachable state a dispatcher that finds a free lane, undisturbed,
   claims it, commits, sends and records, and its task is then what is open there.
   */
  lemma DispatchGoesThrough(s: Sys, p: nat, note: string, d: DispatchArgs, now: nat, digest: Digest) returns (s1: Sys, s2: Sys, s3: Sys, s4: Sys)
    requires SysInv(s, digest) && Running(s, p, Ready) && Recordable(d) && d.source.taskId !in s.w.db.tasks
    requires d.laneArgs.lane in s.w.db.lanes && s.w.db.lanes[d.laneArgs.lane].identity.nonce != d.laneArgs.nonce
    requires forall id :: !OpenIn(s.w.db, id, d.laneArgs.lane)
    requires d.source.kind == "pull" ==> !PullHeld(s.w.db, d.source.taskId, d.source.ref)
    ensures Step(s, Claim(p, d.laneArgs.lane, note), now, digest, s1) && Step(s1, CommitStep(p), now, digest, s2)
    ensures Step(s2, Send(p), now, digest, s3) && Step(s3, Record(p, d), now, digest, s4)
    ensures p < |s4.procs| && s4.procs[p].task == Some(d.source.taskId) && s4.sent == s.sent + [Brief(d.laneArgs.lane, p)]
    ensures OpenIn(s4.w.db, d.source.taskId, d.laneArgs.lane)
    ensures s4.w.db.tasks[d.source.taskId].status.Delivered? && s4.w.db.tasks[d.source.taskId].paneNonce == d.laneArgs.nonce
  {
    assert ProcOk(s.w.db, s.procs[p]);
    s1, s2 := ClaimsAndCommits(s, p, d.laneArgs.lane, note, now, digest);
    ClaimHoldsNoPull(s.w.db, s2.w.db, d.laneArgs.lane, s.procs[p].token, d.source.taskId, d.source.ref);
    s3 := Sends(s2, p, now, digest);
    s4 := Records(s3, p, d, now, digest);
  }
}
