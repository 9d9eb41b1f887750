/**
 The same call as the one object that makes it: ledger writes and the physical send, in the order the
 four adapters share.
 */
module AdapterClass {
  import opened Prelude
  import opened Ids
  import opened Tables
  import opened LedgerSpec
  import opened LedgerInvariants
  import opened Lifecycle
  import opened Columns
  import opened Adapter
  import opened LedgerClass

  /** How the outside world meets the prompt: it cannot be prepared, its author cannot be registered, the send raises, or answers. */
  datatype Reply = NotPrepared | NotRegistered | Raised(reached: bool) | Answered(message: Bytes)

  datatype Refusal = NotAdmitted | LedgerSaid(error: Error) | TransportRaised

  /** The ledger operations of one call, in order, with the second each one reads from the clock. */
  function CallOps(t: Thread, message: Bytes, clock: nat -> nat): seq<(Op, nat)> {
    [(AssignOf(t), clock(0)), (AttemptOf(t), clock(1)), (ConfirmOf(t), clock(2)), (CompleteOf(t, message), clock(3))]
  }

  /** Only a task still `created` can have its attempt put on record, and it has never been sent. */
  lemma AttemptedIsUnsent(db: Db, sent: seq<string>, id: string, nonce: string, now: nat)
    requires Recorded(db, sent) && Transition(db, id, nonce, Attempt, now).Ok? && !db.tasks[id].status.DeliveryPending?
    ensures id !in sent && Transition(db, id, nonce, Attempt, now).value.tasks[id].status.DeliveryPending?
  {
  }

  lemma SendOnce(db: Db, sent: seq<string>, id: string)
    requires Recorded(db, sent) && id !in sent && OnRecord(db, id)
    ensures Recorded(db, sent + [id])
  {
  }

  /** The ledger after the first `n` operations of a call. */
  ghost function After(w: World, t: Thread, message: Bytes, clock: nat -> nat, n: nat, digest: Digest): World
    requires n <= 4
  {
    Run(w, CallOps(t, message, clock)[..n], digest)
  }

  lemma OneMore(w: World, t: Thread, message: Bytes, clock: nat -> nat, n: nat, digest: Digest)
    requires n < 4
    ensures var ops := CallOps(t, message, clock);
      After(w, t, message, clock, n + 1, digest) == Apply(After(w, t, message, clock, n, digest), ops[n].0, ops[n].1, digest)
    ensures After(w, t, message, clock, 0, digest) == w
  {
    assert CallOps(t, message, clock)[..n + 1][..n] == CallOps(t, message, clock)[..n];
  }

  /** Assigning and moving a task leave the results directory alone. */
  lemma FilesWait(w: World, t: Thread, message: Bytes, clock: nat -> nat, n: nat, digest: Digest)
    requires n < 3
    ensures After(w, t, message, clock, n + 1, digest).files == After(w, t, message, clock, n, digest).files
  {
    OneMore(w, t, message, clock, n, digest);
  }

  /** The task is complete with the message for its result, or with the file that was already there. */
  ghost predicate CompletedWith(before: map<string, Bytes>, w: World, id: string, message: Bytes, digest: Digest) {
    var path := id + ".md";
    && id in w.db.tasks && w.db.tasks[id].status.Complete? && path in w.files && w.files == before[path := w.files[path]]
    && w.files[path] == (if path in before then before[path] else message)
    && w.db.tasks[id].resultPath == Some(path) && w.db.tasks[id].resultSha == Some(digest(w.files[path]))
  }

  lemma CompletionFiles(w: World, t: Thread, message: Bytes, now: nat, digest: Digest)
    requires Inv(w, digest) && t.call.taskId in w.db.tasks && w.db.tasks[t.call.taskId].status.Delivered?
    ensures var (w', r) := Decide(w, CompleteOf(t, message).verdict, NoFailpoint, now, digest);
      r.Ok? ==> CompletedWith(w.files, w', t.call.taskId, message, digest)
  {
    var a := CompleteOf(t, message).verdict;
    assert RowOk(w.db, t.call.taskId);
    StorableIs(message);
    if Decide(w, a, NoFailpoint, now, digest).1.Ok? { ConcludeWrites(w, a, now, digest); }
  }

  /** An open source not yet begun, under an id and a summary that say something, and a lane with nothing open in it. */
  ghost predicate Assignable(db: Db, c: Call) {
    && ValidTaskId(c.taskId) && !SaysBlank(c.summary) && c.taskId in db.sources && SpellsOpen(db.sources[c.taskId].state) && db.sources[c.taskId].status.Created?
    && forall id :: !OpenIn(db, id, c.lane)
  }

  /** The call's task stands in its lane, under the nonce both of them bear, in this status. */
  predicate Bears(db: Db, t: Thread, status: Status) {
    && t.call.taskId in db.tasks && t.call.lane in db.lanes
    && var row := db.tasks[t.call.taskId];
    && row.lane == t.call.lane && row.paneNonce == t.nonce && db.lanes[t.call.lane].identity.nonce == t.nonce && row.status == status
  }

  /** A task new to the ledger, for the lane's present incarnation. */
  predicate New(db: Db, t: Thread) { t.call.taskId !in db.tasks && t.call.lane in db.lanes && db.lanes[t.call.lane].identity.nonce == t.nonce }

  lemma NewIsAssigned(db: Db, t: Thread, now: nat)
    requires New(db, t)
    ensures var r := LedgerSpec.Assign(db, AssignOf(t).assign, now);
      (r.Ok? <==> Assignable(db, t.call)) && (r.Ok? ==> Bears(r.value, t, Created))
  {
    AssignWrites(db, AssignOf(t).assign, now);
  }

  /** Nothing stands in the way of a task's own incarnation. */
  lemma BearerMoves(db: Db, t: Thread, now: nat)
    ensures Bears(db, t, Created) ==>
      var r := LedgerSpec.Transition(db, t.call.taskId, t.nonce, Attempt, now); r.Ok? && Bears(r.value, t, DeliveryPending)
    ensures Bears(db, t, DeliveryPending) ==>
      var r := LedgerSpec.Transition(db, t.call.taskId, t.nonce, Deliver, now); r.Ok? && Bears(r.value, t, Delivered)
  {
  }

  lemma BearerCompletes(w: World, t: Thread, message: Bytes, now: nat, digest: Digest)
    requires Inv(w, digest) && Bears(w.db, t, Delivered) && ValidTaskId(t.call.taskId)
    ensures Decide(w, CompleteOf(t, message).verdict, NoFailpoint, now, digest).1.Ok? <==> Storable(message)
  {
    assert RowOk(w.db, t.call.taskId);
    StorableIs(message);
    if Storable(message) { ConcludeWrites(w, CompleteOf(t, message).verdict, now, digest); }
  }

  /** What a call's last operation does, and when it succeeds. */
  lemma LastOperation(start: World, w: World, sent: seq<string>, t: Thread, message: Bytes, clock: nat -> nat, digest: Digest)
    requires w == After(start, t, message, clock, 3, digest) && Inv(w, digest) && Recorded(w.db, sent)
    requires t.call.taskId in w.db.tasks && w.db.tasks[t.call.taskId].status.Delivered?
    ensures var w', op := After(start, t, message, clock, 4, digest), CompleteOf(t, message);
      && w' == Apply(w, op, clock(3), digest) && Recorded(w'.db, sent)
      && (Decide(w, op.verdict, NoFailpoint, clock(3), digest).1.Ok? ==> CompletedWith(w.files, w', t.call.taskId, message, digest))
      && (Bears(w.db, t, Delivered) && ValidTaskId(t.call.taskId) ==> (Decide(w, op.verdict, NoFailpoint, clock(3), digest).1.Ok? <==> Storable(message)))
  {
    OneMore(start, t, message, clock, 3, digest);
    OpKeepsRecord(w, sent, CompleteOf(t, message), clock(3), digest);
    CompletionFiles(w, t, message, clock(3), digest);
    if Bears(w.db, t, Delivered) && ValidTaskId(t.call.taskId) { BearerCompletes(w, t, message, clock(3), digest); }
  }

  class TaskAdapter {
    const kind: Kind
    const ledger: Ledger
    var sent: seq<string>

    ghost predicate Valid() reads this, ledger { ledger.Valid() && Recorded(ledger.Now(), sent) }

    constructor (kind: Kind, ledger: Ledger)
      requires ledger.Valid()
      ensures Valid() && sent == [] && this.ledger == ledger && this.kind == kind
    {
      this.kind, this.ledger, sent := kind, ledger, [];
    }

    method AssignStep(t: Thread, ghost message: Bytes, clock: nat -> nat) returns (r: Outcome<TaskRow>)
      requires Valid()
      requires t.call.taskId in ledger.tasks ==> !ledger.tasks[t.call.taskId].status.DeliveryPending?
      modifies ledger
      ensures Valid() && ledger.State() == After(old(ledger.State()), t, message, clock, 1, ledger.digest) && ledger.files == old(ledger.files)
      ensures r.Ok? ==> ValidTaskId(t.call.taskId) && t.call.taskId in ledger.tasks && !ledger.tasks[t.call.taskId].status.DeliveryPending?
      ensures r.Ok? ==> r.value == ledger.tasks[t.call.taskId] && r.value.lane == t.call.lane && r.value.paneNonce == t.nonce && r.value.summary == t.call.summary
      ensures r.Ok? && t.call.taskId !in old(ledger.tasks) ==> r.value.worktreePath == t.repo && r.value.status.Created?
      ensures New(old(ledger.Now()), t) ==> (r.Ok? <==> Assignable(old(ledger.Now()), t.call)) && (r.Ok? ==> Bears(ledger.Now(), t, Created))
    {
      OneMore(ledger.State(), t, message, clock, 0, ledger.digest);
      FilesWait(ledger.State(), t, message, clock, 0, ledger.digest);
      OpKeepsRecord(ledger.State(), sent, AssignOf(t), clock(0), ledger.digest);
      ghost var before := ledger.Now();
      r := ledger.Assign(AssignOf(t).assign, clock(0));
      if t.call.taskId in before.tasks { AssignAgain(before, AssignOf(t).assign, clock(0)); } else { AssignWrites(before, AssignOf(t).assign, clock(0)); }
      if New(before, t) { NewIsAssigned(before, t, clock(0)); }
    }

    method AttemptStep(t: Thread, ghost start: World, ghost message: Bytes, clock: nat -> nat) returns (r: Outcome<TaskRow>)
      requires Valid() && ledger.State() == After(start, t, message, clock, 1, ledger.digest)
      requires ValidTaskId(t.call.taskId) && t.call.taskId in ledger.tasks && !ledger.tasks[t.call.taskId].status.DeliveryPending?
      modifies ledger
      ensures Valid() && ledger.State() == After(start, t, message, clock, 2, ledger.digest) && ledger.files == old(ledger.files)
      ensures r.Ok? ==> t.call.taskId !in sent && OnRecord(ledger.Now(), t.call.taskId)
      ensures Bears(old(ledger.Now()), t, Created) ==> r.Ok? && Bears(ledger.Now(), t, DeliveryPending)
    {
      ghost var before := ledger.State();
      BearerMoves(before.db, t, clock(1));
      OneMore(start, t, message, clock, 1, ledger.digest);
      FilesWait(start, t, message, clock, 1, ledger.digest);
      ValidTaskIdColonFree(t.call.taskId);
      OpKeepsRecord(before, sent, AttemptOf(t), clock(1), ledger.digest);
      r := ledger.Transition(t.call.taskId, t.nonce, Attempt, clock(1));
      if r.Ok? { AttemptedIsUnsent(before.db, sent, t.call.taskId, t.nonce, clock(1)); }
    }

    method ConfirmStep(t: Thread, ghost start: World, ghost message: Bytes, clock: nat -> nat) returns (r: Outcome<TaskRow>)
      requires Valid() && ledger.State() == After(start, t, message, clock, 2, ledger.digest)
      modifies ledger
      ensures Valid() && ledger.State() == After(start, t, message, clock, 3, ledger.digest) && ledger.files == old(ledger.files)
      ensures r.Ok? ==> t.call.taskId in ledger.tasks && ledger.tasks[t.call.taskId].status.Delivered?
      ensures Bears(old(ledger.Now()), t, DeliveryPending) ==> r.Ok? && Bears(ledger.Now(), t, Delivered)
    {
      BearerMoves(ledger.Now(), t, clock(2));
      OneMore(start, t, message, clock, 2, ledger.digest);
      FilesWait(start, t, message, clock, 2, ledger.digest);
      OpKeepsRecord(ledger.State(), sent, ConfirmOf(t), clock(2), ledger.digest);
      r := ledger.Transition(t.call.taskId, t.nonce, Deliver, clock(2));
    }

    method CompleteStep(t: Thread, ghost start: World, message: Bytes, clock: nat -> nat) returns (r: Outcome<()>)
      requires Valid() && ledger.State() == After(start, t, message, clock, 3, ledger.digest)
      requires t.call.taskId in ledger.tasks && ledger.tasks[t.call.taskId].status.Delivered?
      modifies ledger
      ensures Valid() && ledger.State() == After(start, t, message, clock, 4, ledger.digest)
      ensures r.Ok? ==> CompletedWith(old(ledger.files), ledger.State(), t.call.taskId, message, ledger.digest)
      ensures Bears(old(ledger.Now()), t, Delivered) && ValidTaskId(t.call.taskId) ==> (r.Ok? <==> Storable(message))
    {
      LastOperation(start, ledger.State(), sent, t, message, clock, ledger.digest);
      r := ledger.Conclude(CompleteOf(t, message).verdict, NoFailpoint, clock(3));
    }

    /** Up to the point of no return: the task is assigned and its attempt is on record. */
    method PutOnRecord(t: Thread, prepared: bool, ghost message: Bytes, clock: nat -> nat) returns (r: Result<(), Refusal>, ghost n: nat)
      requires Valid()
      requires t.call.taskId in ledger.tasks ==> !ledger.tasks[t.call.taskId].status.DeliveryPending?
      modifies ledger
      ensures Valid() && n <= 2
      ensures ledger.State() == After(old(ledger.State()), t, message, clock, n, ledger.digest) && ledger.files == old(ledger.files)
      ensures r.Ok? ==> n == 2 && prepared && t.call.taskId !in sent && OnRecord(ledger.Now(), t.call.taskId)
      ensures New(old(ledger.Now()), t) ==>
        (r.Ok? <==> prepared && Assignable(old(ledger.Now()), t.call)) && (r.Ok? ==> Bears(ledger.Now(), t, DeliveryPending))
    {
      ghost var start := ledger.State();
      var entry := AssignStep(t, message, clock);
      if entry.Err? { return Err(LedgerSaid(entry.error)), 1; }
      if !prepared { return Err(TransportRaised), 1; }
      var attempted := AttemptStep(t, start, message, clock);
      if attempted.Err? { return Err(LedgerSaid(attempted.error)), 2; }
      return Ok(()), 2;
    }

    /** After the send: delivery is confirmed and, where the transport brought the outcome back, recorded. */
    method Confirm(t: Thread, ghost start: World, message: Bytes, clock: nat -> nat) returns (r: Result<Status, Refusal>, ghost n: nat)
      requires Valid() && ledger.State() == After(start, t, message, clock, 2, ledger.digest)
      modifies ledger
      ensures Valid() && 3 <= n <= 4
      ensures ledger.State() == After(start, t, message, clock, n, ledger.digest)
      ensures r.Ok? ==>
        && n == (if CompletesInline(kind) then 4 else 3)
        && t.call.taskId in ledger.tasks && ledger.tasks[t.call.taskId].status == r.value
        && r.value == (if CompletesInline(kind) then Complete else Delivered)
      ensures r.Ok? ==> (r.value.Complete? <==> kind == Acp || kind == PiRpc) && (r.value.Delivered? <==> kind == Tmux || kind == ClaudePrint)
      ensures r.Ok? && r.value.Complete? ==> CompletedWith(old(ledger.files), ledger.State(), t.call.taskId, message, ledger.digest)
      ensures r.Ok? && r.value.Delivered? ==> ledger.files == old(ledger.files)
      ensures Bears(old(ledger.Now()), t, DeliveryPending) && ValidTaskId(t.call.taskId) ==>
        (r.Ok? <==> (kind == Acp || kind == PiRpc ==> Storable(message)))
    {
      var confirmed := ConfirmStep(t, start, message, clock);
      if confirmed.Err? { return Err(LedgerSaid(confirmed.error)), 3; }
      if !CompletesInline(kind) { return Ok(Delivered), 3; }
      var done := CompleteStep(t, start, message, clock);
      if done.Err? { return Err(LedgerSaid(done.error)), 4; }
      return Ok(Complete), 4;
    }

    /**
     `n` of the call's ledger operations take effect. The brief goes out at most once, only after the
     attempt is on record, and never for a task whose earlier delivery is unconfirmed.
     */
    method AssignTask(lane: string, id: string, summary: string, matches: bool, idle: bool, reply: Reply, clock: nat -> nat)
      returns (r: Result<Status, Refusal>, ghost t: Thread, ghost n: nat)
      requires Valid()
      modifies this, ledger
      ensures Valid() && n <= 4 && t.call == Call(kind, lane, id, summary)
      ensures ledger.State() == After(old(ledger.State()), t, if reply.Answered? then reply.message else [], clock, n, ledger.digest)
      ensures sent == old(sent) || (sent == old(sent) + [id] && id !in old(sent) && n >= 2)
      ensures id in old(ledger.tasks) && old(ledger.tasks)[id].status.DeliveryPending? ==>
        r == Err(NotAdmitted) && n == 0 && sent == old(sent)
      ensures r.Ok? ==>
        && Admits(old(ledger.Now()), t.call, matches, idle) && reply.Answered? && sent == old(sent) + [id]
        && n == (if CompletesInline(kind) then 4 else 3)
        && id in ledger.tasks && ledger.tasks[id].status == r.value
        && r.value == (if CompletesInline(kind) then Complete else Delivered)
      ensures r.Ok? ==> lane in old(ledger.lanes) && t.nonce == old(ledger.lanes)[lane].identity.nonce && t.repo == old(ledger.lanes)[lane].identity.repo
      ensures r.Ok? ==> MayProceed(old(ledger.Now()), t.call, matches, idle) && (kind == Tmux ==> matches && idle)
      ensures r.Ok? ==> (r.value.Complete? <==> kind == Acp || kind == PiRpc) && (r.value.Delivered? <==> kind == Tmux || kind == ClaudePrint)
      ensures r.Ok? && r.value.Complete? ==> CompletedWith(old(ledger.files), ledger.State(), id, reply.message, ledger.digest)
      ensures r.Ok? && r.value.Delivered? ==> ledger.files == old(ledger.files)
      ensures id !in old(ledger.tasks) ==>
        (r.Ok? <==>
          && MayProceed(old(ledger.Now()), Call(kind, lane, id, summary), matches, idle) && Assignable(old(ledger.Now()), Call(kind, lane, id, summary))
          && reply.Answered? && (kind == Acp || kind == PiRpc ==> Storable(reply.message)))
    {
      var call := Call(kind, lane, id, summary);
      var message := if reply.Answered? then reply.message else [];
      ghost var start := ledger.State();
      t, n := Thread(call, Waiting, "", ""), 0;
      if !Admits(ledger.Now(), call, matches, idle) {
        OneMore(start, t, message, clock, 0, ledger.digest);
        return Err(NotAdmitted), t, 0;
      }
      var mine := Thread(call, Guarded, ledger.lanes[lane].identity.nonce, ledger.lanes[lane].identity.repo);
      t := mine;
      var ready;
      ready, n := PutOnRecord(mine, !reply.NotPrepared?, message, clock);
      if ready.Err? { return Err(ready.error), t, n; }
      if reply.NotRegistered? { return Err(TransportRaised), t, n; }
      SendOnce(ledger.Now(), sent, id);
      if reply.Answered? || reply.reached { sent := sent + [id]; }
      if reply.Raised? { return Err(TransportRaised), t, n; }
      r, n := Confirm(mine, start, message, clock);
    }
  }
}
