/**
 The write-once results directory: what survives a crash between writing a result and recording it,
 and whose slot a verdict may take.
 */
module Results {
  import opened Prelude
  import opened Ids
  import opened Tables
  import opened LedgerSpec
  import opened LedgerInvariants
  import opened Occupancy

  /** Over any run no file is removed or rewritten. */
  lemma {:induction false} RunKeepsFile(w: World, ops: seq<(Op, nat)>, digest: Digest, path: string)
    requires path in w.files
    ensures path in Run(w, ops, digest).files && Run(w, ops, digest).files[path] == w.files[path]
  {
    if ops != [] {
      var mid, last := Run(w, ops[..|ops| - 1], digest), ops[|ops| - 1];
      RunKeepsFile(w, ops[..|ops| - 1], digest, path);
      FilesOnlyGrow(mid, last.0, last.1, digest);
    }
  }

  /** The row a verdict would be recorded on, still open to it. */
  predicate Ready(w: World, a: VerdictArgs) {
    && RequireTaskId(a.taskId, a.allowClaim) && ResultAcceptable(a.result)
    && a.taskId in w.db.tasks && w.db.tasks[a.taskId].paneNonce == a.nonce && Eligible(a.verdict, w.db.tasks[a.taskId])
  }

  /** A crash at any failpoint leaves the tables untouched and the file written, once. */
  lemma CrashLeavesOnlyTheFile(w: World, a: VerdictArgs, fail: Failpoint, now: nat, digest: Digest)
    requires Inv(w, digest) && Ready(w, a) && !fail.NoFailpoint?
    ensures var (crashed, r) := Decide(w, a, fail, now, digest); var path := ResultPath(a.taskId, SuffixOf(a.verdict));
      && r == Err(Injected) && crashed.db == w.db
      && path in crashed.files && crashed.files[path] == (if path in w.files then w.files[path] else a.result)
      && crashed.files == w.files[path := crashed.files[path]]
  {
    assert RowOk(w.db, a.taskId);
  }

  /**
   Retrying after a crash at any failpoint, with any acceptable bytes, after anything else has happened in
   between, settles on the digest of the file the first attempt left: the task is finished, never stranded.
   */
  lemma RetryAdoptsFirstFile(w: World, a: VerdictArgs, fail: Failpoint, now: nat, between: seq<(Op, nat)>,
                             retry: Bytes, later: nat, digest: Digest)
    requires Inv(w, digest) && Ready(w, a) && !fail.NoFailpoint? && AllLegal(between)
    requires Ready(Run(Decide(w, a, fail, now, digest).0, between, digest), a.(result := retry))
    ensures
      var path := ResultPath(a.taskId, SuffixOf(a.verdict));
      var crashed := Decide(w, a, fail, now, digest).0;
      var (done, r) := Decide(Run(crashed, between, digest), a.(result := retry), NoFailpoint, later, digest);
      && r.Ok?
      && done.db.tasks[a.taskId].status == FinalStatus(a.verdict)
      && done.db.tasks[a.taskId].resultSha == Some(digest(crashed.files[path]))
      && done.files[path] == crashed.files[path]
      && CompletionKey(a.taskId) in done.db.events
  {
    var path := ResultPath(a.taskId, SuffixOf(a.verdict));
    var crashed := Decide(w, a, fail, now, digest).0;
    CrashLeavesOnlyTheFile(w, a, fail, now, digest);
    RunKeepsFile(crashed, between, digest, path);
    ApplyKeeps(w, OpDecide(a, fail), now, digest);
    RunInv(crashed, between, digest);
    assert RowOk(Run(crashed, between, digest).db, a.taskId);
  }

  /** A recorded result is never overwritten: different bytes are refused, the same digest is a no-op. */
  lemma RecordedResultIsDefended(w: World, a: VerdictArgs, now: nat, digest: Digest)
    requires Inv(w, digest) && RequireTaskId(a.taskId, a.allowClaim) && ResultAcceptable(a.result)
    requires a.taskId in w.db.tasks && w.db.tasks[a.taskId].paneNonce == a.nonce
    requires w.db.tasks[a.taskId].status == FinalStatus(a.verdict)
    requires w.db.tasks[a.taskId].resultPath == Some(ResultPath(a.taskId, SuffixOf(a.verdict))) && w.db.tasks[a.taskId].resultSha.Some?
    ensures var (after, r) := Decide(w, a, NoFailpoint, now, digest);
      after == w && (r.Ok? <==> Some(digest(a.result)) == w.db.tasks[a.taskId].resultSha)
  {
    assert ResultOk(w, a.taskId, digest);
  }

  /* ---- whose slot ---- */

  function Suffix(s: string, n: nat): string
    requires n <= |s|
  {
    s[|s| - n..]
  }

  /** `id` ends in `.reconcile`. */
  predicate EndsReconcile(id: string) { |id| >= 10 && Suffix(id, 10) == ".reconcile" }

  /** A verdict's file is some task's own slot exactly when that task's id is the judged id plus `.reconcile`. */
  lemma VerdictSlotIff(judged: string, owner: string)
    ensures ResultPath(judged, ".reconcile") == ResultPath(owner, "") <==> owner == judged + ".reconcile"
    ensures owner == judged + ".reconcile" ==> EndsReconcile(owner)
  {
    var left, right := ResultPath(judged, ".reconcile"), ResultPath(owner, "");
    assert left == (judged + ".reconcile") + ".md" && right == owner + ".md";
    assert left[..|left| - 3] == judged + ".reconcile";
    assert right[..|right| - 3] == owner;
    if owner == judged + ".reconcile" { assert owner[|owner| - 10..] == ".reconcile"; }
  }

  /**
   The collision costs a result: once a verdict has filled that slot, then whatever happens in between, the
   other task's own completion takes the verdict's text for its result, whatever it brings itself, and succeeds.
   */
  lemma VerdictIsAdopted(w: World, a: VerdictArgs, now: nat, between: seq<(Op, nat)>, c: VerdictArgs, later: nat, digest: Digest)
    requires Inv(w, digest) && Ready(w, a) && !a.verdict.Completed? && ResultPath(a.taskId, ".reconcile") !in w.files && AllLegal(between)
    requires c.verdict.Completed? && c.taskId == a.taskId + ".reconcile" && Ready(Run(Decide(w, a, NoFailpoint, now, digest).0, between, digest), c)
    ensures var (done, r) := Decide(Run(Decide(w, a, NoFailpoint, now, digest).0, between, digest), c, NoFailpoint, later, digest);
      && r.Ok? && done.db.tasks[c.taskId].status.Complete?
      && ResultPath(c.taskId, "") in done.files && done.files[ResultPath(c.taskId, "")] == a.result
      && done.db.tasks[c.taskId].resultPath == Some(ResultPath(c.taskId, "")) && done.db.tasks[c.taskId].resultSha == Some(digest(a.result))
  {
    var judged := Decide(w, a, NoFailpoint, now, digest).0;
    VerdictSlotIff(a.taskId, c.taskId);
    assert RowOk(w.db, a.taskId);
    ApplyKeeps(w, OpDecide(a, NoFailpoint), now, digest);
    RunKeepsFile(judged, between, digest, ResultPath(c.taskId, ""));
    RunInv(judged, between, digest);
    assert RowOk(Run(judged, between, digest).db, c.taskId);
  }

  function Sent(id: string): DispatchArgs {
    DispatchArgs(LaneArgs("x", "%1", "n", "codex", "/r", "s", "s", "codex", None, "", ""),
                 SourceArgs(id, "issue", "u", "1", "s", "OPEN", Created, [], None, None), "", false)
  }

  function Judged(verdict: Bytes): VerdictArgs { VerdictArgs(StaleDelivery, "a", verdict, "n", false) }

  function Reported(result: Bytes): VerdictArgs { VerdictArgs(Completed, "a.reconcile", result, "n", false) }

  predicate Waits(w: World, id: string) {
    id in w.db.tasks && w.db.tasks[id].lane == "x" && w.db.tasks[id].paneNonce == "n" && w.db.tasks[id].status.Delivered? && w.db.tasks[id].resultSha.None?
  }

  predicate LaneKnown(w: World) { "x" in w.db.lanes ==> w.db.lanes["x"].identity == IdentityOf(Sent("a").laneArgs).value }

  lemma CanBeSent(id: string, db: Db)
    requires (id == "a" || id == "a.reconcile") && id !in db.tasks && Occupant(db, "x").None?
    requires "x" in db.lanes ==> db.lanes["x"].identity == IdentityOf(Sent("a").laneArgs).value
    ensures DispatchOk(db, Sent(id), 0) && FreeForRebind(db, "x", IdentityOf(Sent(id).laneArgs).value, 0) == db
  {
    assert ValidTaskId("a") && ValidTaskId("a.reconcile");
    assert !Blank("s") by { assert !IsSpace("s"[0]); }
  }

  /** A dispatch into the free lane, first or again. */
  lemma SentInto(id: string, w: World, digest: Digest)
    requires (id == "a" || id == "a.reconcile") && id !in w.db.tasks && Occupant(w.db, "x").None? && LaneKnown(w)
    ensures var w' := Apply(w, OpDispatch(Sent(id)), 0, digest);
      Waits(w', id) && w'.db.tasks.Keys == w.db.tasks.Keys + {id} && LaneKnown(w') && w'.files == w.files
  {
    CanBeSent(id, w.db);
    assert Apply(w, OpDispatch(Sent(id)), 0, digest).db == Dispatched(w.db, Sent(id), 0);
  }

  lemma JudgedStale(w: World, verdict: Bytes, digest: Digest)
    requires Waits(w, "a") && w.files == map[] && ResultAcceptable(verdict)
    ensures var w' := Apply(w, OpDecide(Judged(verdict), NoFailpoint), 0, digest);
      && w'.files == map[ResultPath("a", ".reconcile") := verdict] && w'.db.lanes == w.db.lanes
      && w'.db.tasks.Keys == w.db.tasks.Keys && w'.db.tasks["a"].status.Failed?
  {
    assert ValidTaskId("a");
  }

  lemma ReportedComplete(w: World, verdict: Bytes, result: Bytes, digest: Digest)
    requires Waits(w, "a.reconcile") && w.files == map[ResultPath("a.reconcile", "") := verdict] && ResultAcceptable(result)
    ensures var w' := Apply(w, OpDecide(Reported(result), NoFailpoint), 0, digest);
      && w'.files == w.files && "a.reconcile" in w'.db.tasks
      && w'.db.tasks["a.reconcile"].status.Complete? && w'.db.tasks["a.reconcile"].resultSha == Some(digest(verdict))
  {
    assert ValidTaskId("a.reconcile");
  }

  function TakenSlot(verdict: Bytes, result: Bytes): seq<(Op, nat)> {
    [(OpDispatch(Sent("a")), 0), (OpDecide(Judged(verdict), NoFailpoint), 0), (OpDispatch(Sent("a.reconcile")), 0)] + [(OpDecide(Reported(result), NoFailpoint), 0)]
  }

  /** A run from the empty ledger in which a task is complete with another task's verdict as its result. */
  lemma VerdictCanTakeASlot(verdict: Bytes, result: Bytes, digest: Digest)
    requires ResultAcceptable(verdict) && ResultAcceptable(result)
    ensures var w := Run(EMPTY, TakenSlot(verdict, result), digest);
      && AllLegal(TakenSlot(verdict, result)) && w.files == map[ResultPath("a", ".reconcile") := verdict]
      && "a.reconcile" in w.db.tasks && w.db.tasks["a.reconcile"].status.Complete? && w.db.tasks["a.reconcile"].resultSha == Some(digest(verdict))
  {
    VerdictSlotIff("a", "a.reconcile");
    assert "a" + ".reconcile" == "a.reconcile" && |"a"| != |"a.reconcile"|;
    var w1 := Apply(EMPTY, OpDispatch(Sent("a")), 0, digest);
    SentInto("a", EMPTY, digest);
    var w2 := Apply(w1, OpDecide(Judged(verdict), NoFailpoint), 0, digest);
    JudgedStale(w1, verdict, digest);
    SentInto("a.reconcile", w2, digest);
    ReportedComplete(Apply(w2, OpDispatch(Sent("a.reconcile")), 0, digest), verdict, result, digest);
    RunThree(EMPTY, OpDispatch(Sent("a")), OpDecide(Judged(verdict), NoFailpoint), OpDispatch(Sent("a.reconcile")), 0, digest);
    RunOne(EMPTY, TakenSlot(verdict, result)[..3], OpDecide(Reported(result), NoFailpoint), 0, digest);
    assert TakenSlot(verdict, result)[..3] + TakenSlot(verdict, result)[3..] == TakenSlot(verdict, result);
  }

  /** With no id ending in `.reconcile`, no verdict ever fills or alters a lane's own slot. */
  lemma VerdictLeavesSlots(w: World, a: VerdictArgs, fail: Failpoint, now: nat, digest: Digest, owner: string)
    requires !a.verdict.Completed? && !EndsReconcile(owner)
    ensures var slot, after := ResultPath(owner, ""), Decide(w, a, fail, now, digest).0;
      && (slot in after.files <==> slot in w.files)
      && (slot in w.files ==> after.files[slot] == w.files[slot])
  {
    VerdictSlotIff(a.taskId, owner);
  }

  /**
   So a lane judged failed can still file its own late report: it is kept in the lane's own slot, beside the
   verdict, and however often it is filed the row stays failed with the verdict as its result.
   */
  lemma LateReportIsKept(w: World, a: VerdictArgs, report: Bytes, now: nat, later: nat, digest: Digest)
    requires Inv(w, digest) && Ready(w, a) && !a.verdict.Completed? && ValidTaskId(a.taskId) && ResultAcceptable(report)
    requires ResultPath(a.taskId, "") !in w.files && ResultPath(a.taskId, ".reconcile") !in w.files
    ensures var judged := Decide(w, a, NoFailpoint, now, digest).0;
      var late := VerdictArgs(Completed, a.taskId, report, a.nonce, false);
      var (after, r) := Decide(judged, late, NoFailpoint, later, digest);
      && r == Err(WrongStatus) && after.db == judged.db && Decide(after, late, NoFailpoint, later, digest) == (after, r)
      && after.files == w.files[ResultPath(a.taskId, ".reconcile") := a.result][ResultPath(a.taskId, "") := report]
      && after.db.tasks[a.taskId].status.Failed? && after.db.tasks[a.taskId].resultSha == Some(digest(a.result))
  {
    assert RowOk(w.db, a.taskId);
    var own, sibling := ResultPath(a.taskId, ""), ResultPath(a.taskId, ".reconcile");
    assert |own| != |sibling|;
  }
}
