/** `assign_task` of the four adapters, step by step, over any number of processes. */
module Adapter {
  import opened Prelude
  import opened Ids
  import opened Tables
  import opened LedgerSpec
  import opened LedgerInvariants
  import opened Lifecycle
  import opened Columns

  /*
   Each process may be killed, or raise, between any two steps, and everything else that writes the ledger
   runs between the calls.

   The operation lock is part of the state. It is held from before the guard until the call is over, and
   the kernel gives it back when its holder dies; `locked` says whether it is taken at all, so that what
   happens without it can be shown.
   */

  datatype Kind = Tmux | Acp | PiRpc | ClaudePrint

  datatype Call = Call(kind: Kind, lane: string, taskId: string, summary: string)

  /** Where a call stands; past `Entered` it is inside the lock. */
  datatype Pc = Waiting | Entered | Guarded | Assigned | Attempted | SentOut | Confirmed | Over

  datatype Thread = Thread(call: Call, pc: Pc, nonce: string, repo: string)

  /** `sent` lists the task of every physical send, in order. */
  datatype Sys = Sys(w: World, threads: seq<Thread>, holder: Option<nat>, sent: seq<string>)

  /** What the outside world answers is part of the action: whether the pane matches, whether it is idle, what came back. */
  datatype Action =
    | Start(call: Call)
    | Enter(i: nat)
    | Guard(i: nat, matches: bool, idle: bool)
    | AssignStep(i: nat)
    | AttemptStep(i: nat)
    | SendStep(i: nat, reached: bool, raised: bool)
    | ConfirmStep(i: nat)
    | CompleteStep(i: nat, message: Bytes)
    | Die(i: nat)
    | Other(op: Op)

  const START := Sys(EMPTY, [], None, [])

  /** `_verified_lane`: the headless adapters check the recorded harness and transport, tmux checks the live pane. */
  predicate Verified(kind: Kind, lane: LaneRow, matches: bool) {
    match kind
    case Tmux => matches
    case Acp => lane.identity.harness == "copilot-acp"
    case PiRpc => lane.identity.harness == "pi" && lane.identity.transport == "pi-rpc"
    case ClaudePrint => lane.identity.harness == "claude" && lane.identity.transport == "claude-print"
  }

  /** The guard every adapter shares, and tmux's own check that the pane is idle. */
  predicate Admits(db: Db, c: Call, matches: bool, idle: bool) {
    && c.lane in db.lanes && Verified(c.kind, db.lanes[c.lane], matches)
    && !(c.taskId in db.tasks && db.tasks[c.taskId].status.DeliveryPending?)
    && (c.kind.Tmux? ==> idle)
  }

  /** Acp and PiRpc learn the outcome from the send itself; the other two leave it to the lane. */
  predicate CompletesInline(kind: Kind) { kind.Acp? || kind.PiRpc? }

  predicate Inside(pc: Pc) { !pc.Waiting? && !pc.Over? }

  predicate At(s: Sys, i: nat, pc: Pc) { i < |s.threads| && s.threads[i].pc == pc }

  predicate Enabled(s: Sys, a: Action, locked: bool) {
    match a
    case Start(c) => true
    case Enter(i) => At(s, i, Waiting) && (locked ==> s.holder.None?)
    case Guard(i, _, _) => At(s, i, Entered)
    case AssignStep(i) => At(s, i, Guarded)
    case AttemptStep(i) => At(s, i, Assigned)
    case SendStep(i, _, _) => At(s, i, Attempted)
    case ConfirmStep(i) => At(s, i, SentOut)
    case CompleteStep(i, _) => At(s, i, Confirmed)
    case Die(i) => i < |s.threads| && !s.threads[i].pc.Over?
    case Other(op) => Legal(op) && (locked ==> s.holder.None?)
  }

  /** Thread `i` moves to `pc`; leaving the call gives the lock back. */
  function MoveTo(s: Sys, i: nat, pc: Pc): Sys
    requires i < |s.threads|
  {
    s.(threads := s.threads[i := s.threads[i].(pc := pc)], holder := if pc.Over? && s.holder == Some(i) then None else s.holder)
  }

  function AssignOf(t: Thread): Op { OpAssign(AssignArgs(t.call.taskId, t.call.lane, t.nonce, t.call.summary, t.repo)) }

  function AttemptOf(t: Thread): Op { OpTransition(t.call.taskId, t.nonce, Attempt) }

  function ConfirmOf(t: Thread): Op { OpTransition(t.call.taskId, t.nonce, Deliver) }

  function CompleteOf(t: Thread, message: Bytes): Op {
    OpDecide(VerdictArgs(Completed, t.call.taskId, message, t.nonce, false), NoFailpoint)
  }

  ghost function Next(s: Sys, a: Action, locked: bool, now: nat, digest: Digest): Sys
    requires Enabled(s, a, locked)
  {
    match a
    case Start(c) => s.(threads := s.threads + [Thread(c, Waiting, "", "")])
    case Enter(i) => MoveTo(s, i, Entered).(holder := Some(i))
    case Guard(i, matches, idle) =>
      var c := s.threads[i].call;
      if !Admits(s.w.db, c, matches, idle) then MoveTo(s, i, Over)
      else
        var record := s.w.db.lanes[c.lane].identity;
        s.(threads := s.threads[i := s.threads[i].(pc := Guarded, nonce := record.nonce, repo := record.repo)])
    case AssignStep(i) =>
      var op := AssignOf(s.threads[i]);
      if Assign(s.w.db, op.assign, now).Err? then MoveTo(s, i, Over) else MoveTo(s.(w := Apply(s.w, op, now, digest)), i, Assigned)
    case AttemptStep(i) =>
      var t := s.threads[i];
      if Transition(s.w.db, t.call.taskId, t.nonce, Attempt, now).Err? then MoveTo(s, i, Over)
      else MoveTo(s.(w := Apply(s.w, AttemptOf(t), now, digest)), i, Attempted)
    case SendStep(i, reached, raised) =>
      var s' := if reached || !raised then s.(sent := s.sent + [s.threads[i].call.taskId]) else s;
      MoveTo(s', i, if raised then Over else SentOut)
    case ConfirmStep(i) =>
      var t := s.threads[i];
      var ok := Transition(s.w.db, t.call.taskId, t.nonce, Deliver, now).Ok?;
      MoveTo(s.(w := Apply(s.w, ConfirmOf(t), now, digest)), i, if ok && CompletesInline(t.call.kind) then Confirmed else Over)
    case CompleteStep(i, message) => MoveTo(s.(w := Apply(s.w, CompleteOf(s.threads[i], message), now, digest)), i, Over)
    case Die(i) => MoveTo(s, i, Over)
    case Other(op) => s.(w := Apply(s.w, op, now, digest))
  }

  /* ---- the invariant ---- */

  /** A brief that went out belongs to a task that has left `created` for good. */
  predicate OnRecord(db: Db, id: string) { id in db.tasks && !IsClaim(id) && Rank(db.tasks[id].status) >= 1 }

  /** What the steps already taken inside the lock guarantee about the tables now. */
  predicate ThreadOk(s: Sys, i: nat) {
    i < |s.threads| ==>
      var t, id := s.threads[i], s.threads[i].call.taskId;
      && (t.pc.Guarded? || t.pc.Assigned? ==> !(id in s.w.db.tasks && s.w.db.tasks[id].status.DeliveryPending?))
      && (t.pc.Assigned? || t.pc.Attempted? || t.pc.SentOut? ==> id in s.w.db.tasks && !IsClaim(id))
      && (t.pc.Attempted? ==> s.w.db.tasks[id].status.DeliveryPending? && id !in s.sent)
      && (t.pc.Assigned? || t.pc.Attempted? || t.pc.SentOut? || t.pc.Confirmed? ==> ValidTaskId(id))
      && (t.pc.Confirmed? ==> id in s.w.db.tasks && s.w.db.tasks[id].status.Delivered? && s.w.db.tasks[id].paneNonce == t.nonce)
  }

  predicate LockOk(s: Sys) {
    && (forall i | 0 <= i < |s.threads| :: Inside(s.threads[i].pc) ==> s.holder == Some(i))
    && (s.holder.Some? ==> s.holder.value < |s.threads| && Inside(s.threads[s.holder.value].pc))
  }

  predicate NoDuplicates(sent: seq<string>) { forall i, j | 0 <= i < j < |sent| :: sent[i] != sent[j] }

  ghost predicate SysInv(s: Sys, digest: Digest) {
    && Inv(s.w, digest) && LockOk(s)
    && (forall i | 0 <= i < |s.threads| :: ThreadOk(s, i))
    && Recorded(s.w.db, s.sent)
  }

  /** Every brief sent so far was sent once and is on record. */
  ghost predicate Recorded(db: Db, sent: seq<string>) {
    NoDuplicates(sent) && forall k | 0 <= k < |sent| :: OnRecord(db, sent[k])
  }

  /** One ledger operation by whoever may run it: briefs already out stay on record. */
  lemma OpKeepsRecord(w: World, sent: seq<string>, op: Op, now: nat, digest: Digest)
    requires Inv(w, digest) && Recorded(w.db, sent) && Legal(op)
    ensures var w' := Apply(w, op, now, digest); Inv(w', digest) && Recorded(w'.db, sent)
  {
    ApplyKeeps(w, op, now, digest);
    forall k | 0 <= k < |sent| ensures OnRecord(Apply(w, op, now, digest).db, sent[k]) {
      assert OnRecord(w.db, sent[k]);
      StepMonotone(w, op, now, digest, sent[k]);
    }
  }

  /** What remains once the tables are known to be good: only the mover's own thread has to be looked at. */
  lemma MoverSuffices(s: Sys, s': Sys, i: nat, digest: Digest)
    requires SysInv(s, digest) && i < |s.threads| && Inside(s.threads[i].pc)
    requires |s'.threads| == |s.threads| && forall j | 0 <= j < |s.threads| && j != i :: s'.threads[j] == s.threads[j]
    requires s'.holder == (if s'.threads[i].pc.Over? then None else Some(i)) && !s'.threads[i].pc.Waiting?
    requires ThreadOk(s', i)
    ensures LockOk(s') && forall j | 0 <= j < |s'.threads| :: ThreadOk(s', j)
  {
  }

  lemma GuardKeeps(s: Sys, i: nat, matches: bool, idle: bool, now: nat, digest: Digest)
    requires SysInv(s, digest) && At(s, i, Entered)
    ensures SysInv(Next(s, Guard(i, matches, idle), true, now, digest), digest)
  {
    var s' := Next(s, Guard(i, matches, idle), true, now, digest);
    MoverSuffices(s, s', i, digest);
  }

  lemma AssignStepKeeps(s: Sys, i: nat, now: nat, digest: Digest)
    requires SysInv(s, digest) && At(s, i, Guarded)
    ensures SysInv(Next(s, AssignStep(i), true, now, digest), digest)
  {
    var s' := Next(s, AssignStep(i), true, now, digest);
    var id := s.threads[i].call.taskId;
    assert ThreadOk(s, i);
    OpKeepsRecord(s.w, s.sent, AssignOf(s.threads[i]), now, digest);
    if ValidTaskId(id) { ValidTaskIdColonFree(id); }
    MoverSuffices(s, s', i, digest);
  }

  /**
   The heart of it: the attempt is put on record only from `created`, because the guard ruled out
   `delivery_pending` and nothing has run in between; and a task that is `created` has never been sent.
   */
  lemma AttemptStepKeeps(s: Sys, i: nat, now: nat, digest: Digest)
    requires SysInv(s, digest) && At(s, i, Assigned)
    ensures SysInv(Next(s, AttemptStep(i), true, now, digest), digest)
  {
    var s' := Next(s, AttemptStep(i), true, now, digest);
    var t := s.threads[i];
    assert ThreadOk(s, i);
    OpKeepsRecord(s.w, s.sent, AttemptOf(t), now, digest);
    if Transition(s.w.db, t.call.taskId, t.nonce, Attempt, now).Ok? {
      assert forall k | 0 <= k < |s.sent| :: OnRecord(s.w.db, s.sent[k]);
      assert t.call.taskId !in s.sent;
    }
    MoverSuffices(s, s', i, digest);
  }

  lemma SendStepKeeps(s: Sys, i: nat, reached: bool, raised: bool, now: nat, digest: Digest)
    requires SysInv(s, digest) && At(s, i, Attempted)
    ensures SysInv(Next(s, SendStep(i, reached, raised), true, now, digest), digest)
  {
    assert ThreadOk(s, i);
    MoverSuffices(s, Next(s, SendStep(i, reached, raised), true, now, digest), i, digest);
  }

  lemma ConfirmStepKeeps(s: Sys, i: nat, now: nat, digest: Digest)
    requires SysInv(s, digest) && At(s, i, SentOut)
    ensures SysInv(Next(s, ConfirmStep(i), true, now, digest), digest)
  {
    assert ThreadOk(s, i);
    OpKeepsRecord(s.w, s.sent, ConfirmOf(s.threads[i]), now, digest);
    MoverSuffices(s, Next(s, ConfirmStep(i), true, now, digest), i, digest);
  }

  lemma CompleteStepKeeps(s: Sys, i: nat, message: Bytes, now: nat, digest: Digest)
    requires SysInv(s, digest) && At(s, i, Confirmed)
    ensures SysInv(Next(s, CompleteStep(i, message), true, now, digest), digest)
  {
    OpKeepsRecord(s.w, s.sent, CompleteOf(s.threads[i], message), now, digest);
    MoverSuffices(s, Next(s, CompleteStep(i, message), true, now, digest), i, digest);
  }

  /** Arriving, taking the lock, dying, and everything else that writes the ledger. */
  lemma OutsideKeeps(s: Sys, a: Action, now: nat, digest: Digest)
    requires SysInv(s, digest) && Enabled(s, a, true) && (a.Start? || a.Enter? || a.Die? || a.Other?)
    ensures SysInv(Next(s, a, true, now, digest), digest)
  {
    var s' := Next(s, a, true, now, digest);
    if a.Other? { OpKeepsRecord(s.w, s.sent, a.op, now, digest); }
    forall j | 0 <= j < |s'.threads| ensures ThreadOk(s', j) {
      if j < |s.threads| { assert ThreadOk(s, j); }
    }
  }

  lemma NextKeeps(s: Sys, a: Action, now: nat, digest: Digest)
    requires SysInv(s, digest) && Enabled(s, a, true)
    ensures SysInv(Next(s, a, true, now, digest), digest)
  {
    match a
    case Guard(i, matches, idle) => GuardKeeps(s, i, matches, idle, now, digest);
    case AssignStep(i) => AssignStepKeeps(s, i, now, digest);
    case AttemptStep(i) => AttemptStepKeeps(s, i, now, digest);
    case SendStep(i, reached, raised) => SendStepKeeps(s, i, reached, raised, now, digest);
    case ConfirmStep(i) => ConfirmStepKeeps(s, i, now, digest);
    case CompleteStep(i, message) => CompleteStepKeeps(s, i, message, now, digest);
    case _ => OutsideKeeps(s, a, now, digest);
  }

  /* ---- runs ---- */

  ghost predicate IsRun(states: seq<Sys>, actions: seq<(Action, nat)>, locked: bool, digest: Digest) {
    && |states| == |actions| + 1
    && forall k | 0 <= k < |actions| :: Enabled(states[k], actions[k].0, locked) && states[k + 1] == Next(states[k], actions[k].0, locked, actions[k].1, digest)
  }

  lemma {:induction false} RunKeeps(states: seq<Sys>, actions: seq<(Action, nat)>, digest: Digest, n: nat)
    requires IsRun(states, actions, true, digest) && states[0] == START && n < |states|
    ensures SysInv(states[n], digest)
  {
    if n > 0 {
      RunKeeps(states, actions, digest, n - 1);
      NextKeeps(states[n - 1], actions[n - 1].0, actions[n - 1].1, digest);
    }
  }

  /**
   At most once: over every interleaving of calls, crashes, re-registrations and reconciliations no task
   is physically sent twice, and once sent it is never `created` again.
   */
  lemma AtMostOnceSend(states: seq<Sys>, actions: seq<(Action, nat)>, digest: Digest, n: nat)
    requires IsRun(states, actions, true, digest) && states[0] == START && n < |states|
    ensures forall i, j | 0 <= i < |states[n].sent| && 0 <= j < |states[n].sent| && states[n].sent[i] == states[n].sent[j] :: i == j
    ensures forall k | 0 <= k < |states[n].sent| ::
      states[n].sent[k] in states[n].w.db.tasks && !states[n].w.db.tasks[states[n].sent[k]].status.Created?
  {
    RunKeeps(states, actions, digest, n);
    var s := states[n];
    forall k | 0 <= k < |s.sent| ensures s.sent[k] in s.w.db.tasks && !s.w.db.tasks[s.sent[k]].status.Created? {
      assert OnRecord(s.w.db, s.sent[k]);
    }
  }

  /* ---- who may be sent to, and who completes ---- */

  /** What each adapter asks before it takes a call past its guard. */
  predicate MayProceed(db: Db, c: Call, matches: bool, idle: bool) {
    && c.lane in db.lanes && (c.taskId in db.tasks ==> !db.tasks[c.taskId].status.DeliveryPending?)
    && (c.kind == Tmux ==> matches && idle)
    && (c.kind == Acp ==> db.lanes[c.lane].identity.harness == "copilot-acp")
    && (c.kind == PiRpc ==> db.lanes[c.lane].identity.harness == "pi" && db.lanes[c.lane].identity.transport == "pi-rpc")
    && (c.kind == ClaudePrint ==> db.lanes[c.lane].identity.harness == "claude" && db.lanes[c.lane].identity.transport == "claude-print")
  }

  lemma GuardPasses(s: Sys, i: nat, matches: bool, idle: bool, locked: bool, now: nat, digest: Digest)
    requires At(s, i, Entered)
    ensures Next(s, Guard(i, matches, idle), locked, now, digest).threads[i].pc.Guarded? <==> MayProceed(s.w.db, s.threads[i].call, matches, idle)
  {
  }

  /** Calls never change what they are about, and only begin by arriving. */
  lemma CallsStay(s: Sys, a: Action, locked: bool, now: nat, digest: Digest, i: nat)
    requires Enabled(s, a, locked) && i < |s.threads|
    ensures i < |Next(s, a, locked, now, digest).threads| && Next(s, a, locked, now, digest).threads[i].call == s.threads[i].call
  {
  }

  predicate PastGuard(pc: Pc) { pc.Guarded? || pc.Assigned? || pc.Attempted? || pc.SentOut? || pc.Confirmed? }

  /** Over any run, locked or not: a call past its guard was let through, by the tables as they then were and by the pane. */
  lemma {:induction false} LetThrough(states: seq<Sys>, actions: seq<(Action, nat)>, locked: bool, digest: Digest, n: nat, i: nat) returns (m: nat)
    requires IsRun(states, actions, locked, digest) && states[0] == START && n < |states|
    requires i < |states[n].threads| && PastGuard(states[n].threads[i].pc)
    ensures m < n && actions[m].0.Guard? && actions[m].0.i == i
    ensures i < |states[m].threads| && MayProceed(states[m].w.db, states[n].threads[i].call, actions[m].0.matches, actions[m].0.idle)
  {
    var s, a := states[n - 1], actions[n - 1].0;
    assert Enabled(s, a, locked) && states[n] == Next(s, a, locked, actions[n - 1].1, digest);
    if i < |s.threads| { CallsStay(s, a, locked, actions[n - 1].1, digest, i); }
    if i < |s.threads| && PastGuard(s.threads[i].pc) {
      m := LetThrough(states, actions, locked, digest, n - 1, i);
    } else {
      assert a.Guard? && a.i == i;
      GuardPasses(s, i, a.matches, a.idle, locked, actions[n - 1].1, digest);
      m := n - 1;
    }
  }

  /** A tmux brief is only ever sent into a pane that was seen to be the lane's own and idle. */
  lemma TmuxSendsWhenIdle(states: seq<Sys>, actions: seq<(Action, nat)>, locked: bool, digest: Digest, n: nat) returns (m: nat)
    requires IsRun(states, actions, locked, digest) && states[0] == START && n < |actions| && actions[n].0.SendStep?
    requires states[n].threads[actions[n].0.i].call.kind == Tmux
    ensures m < n && actions[m].0 == Guard(actions[n].0.i, true, true)
  {
    m := LetThrough(states, actions, locked, digest, n, actions[n].0.i);
  }

  predicate OnlyInlineConfirmed(s: Sys) { forall i | 0 <= i < |s.threads| && s.threads[i].pc.Confirmed? :: s.threads[i].call.kind == Acp || s.threads[i].call.kind == PiRpc }

  lemma {:induction false} InlineKinds(states: seq<Sys>, actions: seq<(Action, nat)>, locked: bool, digest: Digest, n: nat)
    requires IsRun(states, actions, locked, digest) && states[0] == START && n < |states|
    ensures OnlyInlineConfirmed(states[n])
  {
    if n > 0 {
      InlineKinds(states, actions, locked, digest, n - 1);
      var s, a := states[n - 1], actions[n - 1].0;
      assert Enabled(s, a, locked) && states[n] == Next(s, a, locked, actions[n - 1].1, digest);
    }
  }

  /** Confirming a delivery leaves the call to complete its task for Acp and PiRpc, and ends it for the other two. */
  lemma ConfirmingEndsOrContinues(s: Sys, i: nat, locked: bool, now: nat, digest: Digest)
    requires At(s, i, SentOut) && Transition(s.w.db, s.threads[i].call.taskId, s.threads[i].nonce, Deliver, now).Ok?
    ensures var t, s' := s.threads[i], Next(s, ConfirmStep(i), locked, now, digest);
      && t.call.taskId in s'.w.db.tasks && s'.w.db.tasks[t.call.taskId].status.Delivered?
      && (t.call.kind == Acp || t.call.kind == PiRpc ==> s'.threads[i].pc.Confirmed?)
      && (t.call.kind == Tmux || t.call.kind == ClaudePrint ==> s'.threads[i].pc.Over?)
  {
  }

  /**
   Over every locked run: only an Acp or PiRpc call completes its task, and when it does with a message that
   can be stored the task is complete, its result the digest of the file: the message, unless one was there.
   */
  lemma InlineCompletion(states: seq<Sys>, actions: seq<(Action, nat)>, digest: Digest, n: nat)
    requires IsRun(states, actions, true, digest) && states[0] == START && n < |actions| && actions[n].0.CompleteStep?
    ensures var t, message, w, w' := states[n].threads[actions[n].0.i], actions[n].0.message, states[n].w, states[n + 1].w;
      var id, path := t.call.taskId, t.call.taskId + ".md";
      && (t.call.kind == Acp || t.call.kind == PiRpc)
      && (Storable(message) ==>
            && id in w'.db.tasks && w'.db.tasks[id].status.Complete? && path in w'.files
            && w'.files[path] == (if path in w.files then w.files[path] else message)
            && w'.db.tasks[id].resultPath == Some(path) && w'.db.tasks[id].resultSha == Some(digest(w'.files[path])))
  {
    var s, i := states[n], actions[n].0.i;
    InlineKinds(states, actions, true, digest, n);
    RunKeeps(states, actions, digest, n);
    assert Enabled(s, actions[n].0, true) && states[n + 1] == Next(s, actions[n].0, true, actions[n].1, digest);
    assert ThreadOk(s, i) && RowOk(s.w.db, s.threads[i].call.taskId);
    if Storable(actions[n].0.message) {
      ConcludeWrites(s.w, CompleteOf(s.threads[i], actions[n].0.message).verdict, actions[n].1, digest);
    }
  }

  /* ---- what the lock is for ---- */

  /** Two calls that have both passed the guard before either has put its attempt on record. */
  function BothSend(now: nat): seq<(Action, nat)> {
    [(AssignStep(0), now), (AssignStep(1), now), (AttemptStep(0), now), (AttemptStep(1), now),
     (SendStep(0, true, false), now), (SendStep(1, true, false), now)]
  }

  function GuardedThread(w: World, c: Call): Thread
    requires c.lane in w.db.lanes
  {
    Thread(c, Guarded, w.db.lanes[c.lane].identity.nonce, w.db.lanes[c.lane].identity.repo)
  }

  /** Assigning again and attempting again both answer as the first time did, and change nothing. */
  lemma SecondTimeIsSilent(db: Db, a: AssignArgs, now: nat)
    requires a.taskId !in db.tasks && Assign(db, a, now).Ok?
    ensures var db1 := Assign(db, a, now).value;
      && Assign(db1, a, now) == Ok(db1) && Transition(db1, a.taskId, a.nonce, Attempt, now).Ok?
      && var db2 := Transition(db1, a.taskId, a.nonce, Attempt, now).value;
      && Transition(db2, a.taskId, a.nonce, Attempt, now) == Ok(db2)
  {
  }

  lemma AssignPasses(s: Sys, i: nat, now: nat, digest: Digest)
    requires At(s, i, Guarded) && Assign(s.w.db, AssignOf(s.threads[i]).assign, now).Ok?
    ensures Next(s, AssignStep(i), false, now, digest) ==
      s.(w := s.w.(db := Assign(s.w.db, AssignOf(s.threads[i]).assign, now).value), threads := s.threads[i := s.threads[i].(pc := Assigned)])
  {
  }

  lemma AssignInTurn(w: World, g: Thread, now: nat, digest: Digest) returns (states: seq<Sys>)
    requires g.pc.Guarded? && Assign(w.db, AssignOf(g).assign, now).Ok?
    requires var db' := Assign(w.db, AssignOf(g).assign, now).value; Assign(db', AssignOf(g).assign, now) == Ok(db')
    ensures IsRun(states, [(AssignStep(0), now), (AssignStep(1), now)], false, digest)
    ensures states[0] == Sys(w, [g, g], Some(1), [])
    ensures var h := g.(pc := Assigned); states[2] == Sys(w.(db := Assign(w.db, AssignOf(g).assign, now).value), [h, h], Some(1), [])
  {
    var w1, h := w.(db := Assign(w.db, AssignOf(g).assign, now).value), g.(pc := Assigned);
    states := [Sys(w, [g, g], Some(1), []), Sys(w1, [h, g], Some(1), []), Sys(w1, [h, h], Some(1), [])];
    AssignPasses(states[0], 0, now, digest);
    AssignPasses(states[1], 1, now, digest);
  }

  lemma AttemptPasses(s: Sys, i: nat, now: nat, digest: Digest)
    requires At(s, i, Assigned) && Transition(s.w.db, s.threads[i].call.taskId, s.threads[i].nonce, Attempt, now).Ok?
    ensures Next(s, AttemptStep(i), false, now, digest) ==
      s.(w := s.w.(db := Transition(s.w.db, s.threads[i].call.taskId, s.threads[i].nonce, Attempt, now).value),
         threads := s.threads[i := s.threads[i].(pc := Attempted)])
  {
  }

  lemma AttemptInTurn(w: World, h: Thread, now: nat, digest: Digest) returns (states: seq<Sys>)
    requires h.pc.Assigned? && Transition(w.db, h.call.taskId, h.nonce, Attempt, now).Ok?
    requires var db' := Transition(w.db, h.call.taskId, h.nonce, Attempt, now).value;
      Transition(db', h.call.taskId, h.nonce, Attempt, now) == Ok(db')
    ensures IsRun(states, [(AttemptStep(0), now), (AttemptStep(1), now)], false, digest)
    ensures states[0] == Sys(w, [h, h], Some(1), [])
    ensures states[2].threads == [h.(pc := Attempted), h.(pc := Attempted)] && states[2].holder == Some(1) && states[2].sent == []
  {
    var w1, k := w.(db := Transition(w.db, h.call.taskId, h.nonce, Attempt, now).value), h.(pc := Attempted);
    states := [Sys(w, [h, h], Some(1), []), Sys(w1, [k, h], Some(1), []), Sys(w1, [k, k], Some(1), [])];
    AttemptPasses(states[0], 0, now, digest);
    AttemptPasses(states[1], 1, now, digest);
  }

  lemma SendInTurn(w: World, k: Thread, now: nat, digest: Digest) returns (states: seq<Sys>)
    requires k.pc.Attempted?
    ensures IsRun(states, [(SendStep(0, true, false), now), (SendStep(1, true, false), now)], false, digest)
    ensures states[0] == Sys(w, [k, k], Some(1), []) && states[2].sent == [k.call.taskId, k.call.taskId]
  {
    var o, id := k.(pc := SentOut), k.call.taskId;
    states := [Sys(w, [k, k], Some(1), []), Sys(w, [o, k], Some(1), [id]), Sys(w, [o, o], Some(1), [id, id])];
  }

  lemma AssignsThenAttempts(w: World, g: Thread, now: nat, digest: Digest) returns (assigning: seq<Sys>, attempting: seq<Sys>)
    requires g.pc.Guarded? && g.call.taskId !in w.db.tasks && Assign(w.db, AssignOf(g).assign, now).Ok?
    ensures IsRun(assigning, [(AssignStep(0), now), (AssignStep(1), now)], false, digest) && assigning[0] == Sys(w, [g, g], Some(1), [])
    ensures IsRun(attempting, [(AttemptStep(0), now), (AttemptStep(1), now)], false, digest) && attempting[0] == assigning[2]
    ensures attempting[2].threads == [g.(pc := Attempted), g.(pc := Attempted)] && attempting[2].holder == Some(1) && attempting[2].sent == []
  {
    SecondTimeIsSilent(w.db, AssignOf(g).assign, now);
    assigning := AssignInTurn(w, g, now, digest);
    attempting := AttemptInTurn(assigning[2].w, g.(pc := Assigned), now, digest);
  }

  /** Both get as far as the send. */
  lemma BothAttempt(w: World, g: Thread, now: nat, digest: Digest) returns (states: seq<Sys>)
    requires g.pc.Guarded? && g.call.taskId !in w.db.tasks && Assign(w.db, AssignOf(g).assign, now).Ok?
    ensures IsRun(states, BothSend(now)[..4], false, digest) && states[0] == Sys(w, [g, g], Some(1), [])
    ensures states[4].threads == [g.(pc := Attempted), g.(pc := Attempted)] && states[4].holder == Some(1) && states[4].sent == []
  {
    var assigning, attempting := AssignsThenAttempts(w, g, now, digest);
    var first: seq<(Action, nat)>, second := [(AssignStep(0), now), (AssignStep(1), now)], [(AttemptStep(0), now), (AttemptStep(1), now)];
    RunsJoin(assigning, attempting, first, second, false, digest);
    assert first + second == BothSend(now)[..4];
    states := assigning + attempting[1..];
  }

  /**
   Without the lock the guard is worth nothing: of any new task that could be delivered at all, two calls
   that have both passed it deliver two copies, because putting an attempt on record a second time
   succeeds and says nothing.
   */
  lemma UnlockedSendsTwice(w: World, c: Call, now: nat, digest: Digest) returns (states: seq<Sys>)
    requires Admits(w.db, c, true, true) && c.taskId !in w.db.tasks
    requires Assign(w.db, AssignOf(GuardedThread(w, c)).assign, now).Ok?
    ensures IsRun(states, BothSend(now), false, digest)
    ensures states[0] == Sys(w, [GuardedThread(w, c), GuardedThread(w, c)], Some(1), []) && states[6].sent == [c.taskId, c.taskId]
  {
    var g := GuardedThread(w, c);
    var attempting := BothAttempt(w, g, now, digest);
    var sending := SendInTurn(attempting[4].w, g.(pc := Attempted), now, digest);
    RunsJoin(attempting, sending, BothSend(now)[..4], BothSend(now)[4..], false, digest);
    assert BothSend(now)[..4] + BothSend(now)[4..] == BothSend(now);
    states := attempting + sending[1..];
  }

  lemma RunsJoin(first: seq<Sys>, second: seq<Sys>, a: seq<(Action, nat)>, b: seq<(Action, nat)>, locked: bool, digest: Digest)
    requires IsRun(first, a, locked, digest) && IsRun(second, b, locked, digest) && first[|a|] == second[0]
    ensures IsRun(first + second[1..], a + b, locked, digest)
  {
    var states, actions := first + second[1..], a + b;
    forall k | 0 <= k < |actions|
      ensures Enabled(states[k], actions[k].0, locked) && states[k + 1] == Next(states[k], actions[k].0, locked, actions[k].1, digest)
    {
      if k < |a| { assert Enabled(first[k], a[k].0, locked); } else { assert Enabled(second[k - |a|], b[k - |a|].0, locked); }
    }
  }

  /* ---- lanes a recorded dispatch takes away from the headless adapters ---- */

  predicate Headless(db: Db, lane: string) { lane in db.lanes && db.lanes[lane].identity.transport in {"pi-rpc", "claude-print"} }

  /** A registration of this lane under one of the two headless transports. */
  predicate MakesHeadless(op: Op, lane: string) {
    op.OpRegister? && op.laneArgs.lane == lane && IdentityOf(op.laneArgs).Ok? && IdentityOf(op.laneArgs).value.transport in {"pi-rpc", "claude-print"}
  }

  lemma LaneOpKeepsLanes(w: World, op: Op, now: nat, digest: Digest)
    requires LaneOp(op) && !op.OpRegister?
    ensures Apply(w, op, now, digest).db.lanes == w.db.lanes
  {
  }

  lemma LanesUntouched(w: World, op: Op, now: nat, digest: Digest)
    requires !op.OpRegister? && !op.OpDispatch?
    ensures Apply(w, op, now, digest).db.lanes == w.db.lanes
  {
    if LaneOp(op) { LaneOpKeepsLanes(w, op, now, digest); }
  }

  /** A harness's first transport is never headless, and that is what recording a dispatch writes. */
  lemma DispatchIsNotHeadless(db: Db, d: DispatchArgs, now: nat, lane: string)
    ensures DispatchOk(db, d, now) && d.laneArgs.lane == lane ==> !Headless(RecordDispatch(db, d, now), lane)
    ensures Headless(RecordDispatch(db, d, now), lane) ==> Headless(db, lane)
  {
  }

  /** One step makes a lane headless exactly when it registers it so. */
  lemma HeadlessIff(w: World, op: Op, now: nat, digest: Digest, lane: string)
    requires !Headless(w.db, lane)
    ensures Headless(Apply(w, op, now, digest).db, lane) <==> MakesHeadless(op, lane)
  {
    if op.OpDispatch? { DispatchIsNotHeadless(w.db, op.dispatch, now, lane); }
    else if !op.OpRegister? { LanesUntouched(w, op, now, digest); }
  }

  /**
   After a dispatch is recorded on a lane, whatever transport its caller named, the two headless adapters
   refuse that lane over any run, until it is registered again under their own transport.
   */
  lemma {:induction false} DispatchedLaneRefusesHeadless(w: World, d: DispatchArgs, now: nat, ops: seq<(Op, nat)>, c: Call, matches: bool, idle: bool, digest: Digest)
    requires DispatchOk(w.db, d, now) && c.lane == d.laneArgs.lane && (c.kind.PiRpc? || c.kind.ClaudePrint?)
    requires forall i | 0 <= i < |ops| :: !MakesHeadless(ops[i].0, c.lane)
    ensures var w' := Run(Apply(w, OpDispatch(d), now, digest), ops, digest); !Headless(w'.db, c.lane) && !Admits(w'.db, c, matches, idle)
  {
    DispatchIsNotHeadless(w.db, d, now, c.lane);
    if ops != [] {
      var front, last := ops[..|ops| - 1], ops[|ops| - 1];
      DispatchedLaneRefusesHeadless(w, d, now, front, c, matches, idle, digest);
      HeadlessIff(Run(Apply(w, OpDispatch(d), now, digest), front, digest), last.0, last.1, digest, c.lane);
    }
  }

  /** ...which is then all that was missing: such a lane is admitted unless this task's delivery is in doubt. */
  lemma RegisteredAgainAdmits(w: World, op: Op, c: Call, now: nat, digest: Digest, matches: bool, idle: bool)
    requires MakesHeadless(op, c.lane) && (c.kind.PiRpc? || c.kind.ClaudePrint?)
    requires op.laneArgs.harness == if c.kind.PiRpc? then "pi" else "claude"
    ensures var db' := Apply(w, op, now, digest).db;
      Admits(db', c, matches, idle) <==> !(c.taskId in db'.tasks && db'.tasks[c.taskId].status.DeliveryPending?)
  {
  }
}
