/**
 One open task per pull request. The guarantee is a trigger on `source_tasks`, so it covers every
 write of a pull row; the one way past it is to assign a task to a pull row that has none.
 */
module PullRequests {
  import opened Prelude
  import opened Ids
  import opened Tables
  import opened LedgerSpec
  import opened LedgerInvariants
  import opened Lifecycle

  predicate PullRow(db: Db, id: string) { id in db.sources && db.sources[id].kind == "pull" }

  predicate OpenPull(db: Db, id: string, ref: string) { PullRow(db, id) && db.sources[id].ref == ref && Open(db, id) }

  ghost predicate PullUnique(db: Db) {
    forall a, b, ref :: OpenPull(db, a, ref) && OpenPull(db, b, ref) ==> a == b
  }

  /** `record_dispatch` writes a pull row and its task together. */
  ghost predicate PullHasTask(db: Db) { forall id :: PullRow(db, id) ==> id in db.tasks }

  /* ---- opening a ledger ---- */

  /** The `GROUP BY source_ref HAVING COUNT(*) > 1` query: refs with more than one open pull task. */
  function DuplicatePulls(db: Db): set<string> {
    set a, b | a in db.sources && b in db.sources && a != b
      && OpenPull(db, a, db.sources[a].ref) && OpenPull(db, b, db.sources[a].ref) :: db.sources[a].ref
  }

  lemma DuplicatesIff(db: Db)
    ensures DuplicatePulls(db) == {} <==> PullUnique(db)
  {
    if DuplicatePulls(db) == {} {
      forall a, b, ref | OpenPull(db, a, ref) && OpenPull(db, b, ref) ensures a == b {
        assert a != b ==> ref in DuplicatePulls(db);
      }
    }
  }

  datatype OpenFailpoint = NoOpenFailpoint | BeforePullTrigger | AfterPullTrigger

  /**
   `_migrate_source_tasks_pull_uniqueness`, of a file whose trigger may exist already: then nothing is looked
   at; otherwise duplicates are refused and the trigger is created, in a transaction of its own.
   */
  function OpenLedger(db: Db, trigger: bool, fail: OpenFailpoint): (bool, Outcome<()>) {
    if trigger then (true, Ok(()))
    else if DuplicatePulls(db) != {} then (false, Err(OpenPullTaken))
    else if !fail.NoOpenFailpoint? then (false, Err(Injected))
    else (true, Ok(()))
  }

  /**
   A file without the trigger opens exactly when its pulls are unique, and gets it; one that has it always
   opens. So an opened ledger's pulls are unique exactly when the trigger was not there yet or they were.
   A refusal or an abort leaves the trigger as it was.
   */
  lemma OpeningOutcome(db: Db, trigger: bool, fail: OpenFailpoint)
    ensures var (trigger', r) := OpenLedger(db, trigger, fail);
      && (fail.NoOpenFailpoint? ==> (r.Ok? <==> trigger || PullUnique(db)))
      && (r.Ok? ==> trigger' && (PullUnique(db) <==> !trigger || PullUnique(db)))
      && (r.Err? ==> trigger' == trigger == false && (r.error == OpenPullTaken <==> !PullUnique(db)))
  {
    DuplicatesIff(db);
  }

  /* ---- the steps ---- */

  /** No row is newly open, and no row newly names a pull. */
  predicate OnlyCloses(db: Db, db': Db, id: string) {
    PullRow(db', id) && Open(db', id) ==> PullRow(db, id) && Open(db, id) && db'.sources[id].ref == db.sources[id].ref
  }

  lemma ClosingKeeps(db: Db, db': Db)
    requires PullUnique(db) && forall id :: OnlyCloses(db, db', id)
    ensures PullUnique(db')
  {
    forall a, b, ref | OpenPull(db', a, ref) && OpenPull(db', b, ref) ensures a == b {
      assert OnlyCloses(db, db', a) && OnlyCloses(db, db', b);
      assert OpenPull(db, a, ref) && OpenPull(db, b, ref);
    }
  }

  lemma SourceIdsArePlain(db: Db, id: string)
    requires DbOk(db) && id in db.sources
    ensures ColonFree(id) && !IsClaim(id) && !IsHold(id) && !LikeClaim(id)
  {
    ValidTaskIdColonFree(id);
    assert LikeClaim(id) ==> id[12] == ':' by { assert CLAIM_PREFIX[12] == ':'; }
  }

  predicate SamePull(db: Db, db': Db, id: string) {
    (id in db'.sources <==> id in db.sources)
    && (id in db.sources ==> db'.sources[id].kind == db.sources[id].kind && db'.sources[id].ref == db.sources[id].ref)
  }

  lemma LaneOpKeepsPulls(w: World, op: Op, now: nat, digest: Digest, id: string)
    requires LaneOp(op)
    ensures SamePull(w.db, Apply(w, op, now, digest).db, id)
  {
  }

  /** Only the two upserts write a source's kind or number. */
  lemma SourcesKeepPulls(w: World, op: Op, now: nat, digest: Digest, id: string)
    requires !op.OpReconstruct? && !op.OpDispatch?
    ensures SamePull(w.db, Apply(w, op, now, digest).db, id)
  {
    if LaneOp(op) { LaneOpKeepsPulls(w, op, now, digest, id); }
  }

  lemma LaneOpNoNewPlainTask(w: World, op: Op, now: nat, digest: Digest, id: string)
    requires ColonFree(id) && Legal(op) && LaneOp(op) && id in Apply(w, op, now, digest).db.tasks
    ensures id in w.db.tasks
  {
  }

  /** Only an assignment or a dispatch brings a task under an ordinary id. */
  lemma NoNewPlainTask(w: World, op: Op, now: nat, digest: Digest, id: string)
    requires ColonFree(id) && Legal(op) && !op.OpAssign? && !op.OpDispatch? && id in Apply(w, op, now, digest).db.tasks
    ensures id in w.db.tasks
  {
    if LaneOp(op) { LaneOpNoNewPlainTask(w, op, now, digest, id); }
  }

  /** Neither a source upsert nor an assignment: everything but the three writers of open pulls. */
  predicate OpensNothing(op: Op) { !op.OpReconstruct? && !op.OpAssign? && !op.OpDispatch? }

  lemma OtherOpOnlyCloses(w: World, op: Op, now: nat, digest: Digest, id: string)
    requires DbOk(w.db) && Legal(op) && OpensNothing(op)
    ensures OnlyCloses(w.db, Apply(w, op, now, digest).db, id)
  {
    var db' := Apply(w, op, now, digest).db;
    SourcesKeepPulls(w, op, now, digest, id);
    StepMonotone(w, op, now, digest, id);
    if id in db'.sources && id in db'.tasks {
      SourceIdsArePlain(w.db, id);
      NoNewPlainTask(w, op, now, digest, id);
    }
  }

  /** Writing one source row the trigger lets through, upserts and changes of kind or number included. */
  lemma TriggerKeeps(db: Db, id: string, row: SourceRow)
    requires PullUnique(db) && !PullTaken(db, id, row.kind, row.ref)
    ensures PullUnique(db.(sources := db.sources[id := row]))
  {
    var db' := db.(sources := db.sources[id := row]);
    forall a, b, ref | OpenPull(db', a, ref) && OpenPull(db', b, ref) ensures a == b {
      if a != id && b != id { assert OpenPull(db, a, ref) && OpenPull(db, b, ref); }
      else if a != b {
        var other := if a == id then b else a;
        assert other in db.sources && Open(db, other);
      }
    }
  }

  /** Opening one task whose own pull number nobody else holds open. */
  lemma OpeningKeepsIff(db: Db, id: string, row: TaskRow)
    requires PullUnique(db) && id in db.sources && !Open(db, id) && !Terminal(row.status)
    ensures PullUnique(PutTask(db, id, row)) <==> !PullTaken(db, id, db.sources[id].kind, db.sources[id].ref)
  {
    var db', ref := PutTask(db, id, row), db.sources[id].ref;
    if PullTaken(db, id, db.sources[id].kind, ref) {
      var other :| other in db.sources && other != id && db.sources[other].kind == "pull" && db.sources[other].ref == ref && Open(db, other);
      assert OpenPull(db', other, ref) && OpenPull(db', id, ref);
    } else {
      forall a, b, r | OpenPull(db', a, r) && OpenPull(db', b, r) ensures a == b {
        if a != id && b != id { assert OpenPull(db, a, r) && OpenPull(db, b, r); }
        else if a != b {
          var other := if a == id then b else a;
          assert other in db.sources && Open(db, other);
        }
      }
    }
  }

  lemma DispatchKeepsUnique(db: Db, d: DispatchArgs, now: nat)
    requires DbOk(db) && PullUnique(db)
    ensures PullUnique(RecordDispatch(db, d, now))
  {
    if DispatchOk(db, d, now) {
      var id, lane := d.source.taskId, d.laneArgs.lane;
      var freed := FreeForRebind(db, lane, IdentityOf(d.laneArgs).value, now);
      forall other ensures OnlyCloses(db, freed, other) { }
      ClosingKeeps(db, freed);
      var sourced := freed.(sources := freed.sources[id := SourceRowOf(d.source, now)]);
      TriggerKeeps(freed, id, SourceRowOf(d.source, now));
      assert PullTaken(sourced, id, d.source.kind, d.source.ref) ==> PullTaken(freed, id, d.source.kind, d.source.ref);
      var done := PutTask(sourced, id, DeliveredRow(freed, d, now));
      if Open(sourced, id) {
        forall other ensures OnlyCloses(sourced, done, other) { }
        ClosingKeeps(sourced, done);
      } else {
        OpeningKeepsIff(sourced, id, DeliveredRow(freed, d, now));
      }
      var db' := Dispatched(db, d, now);
      assert db'.tasks == done.tasks && db'.sources == done.sources;
      forall other ensures OnlyCloses(done, db', other) { }
      ClosingKeeps(done, db');
    }
  }

  /** The one step that can break it: assigning, for the first time, a pull another open task already holds. */
  predicate Escapes(db: Db, op: Op) {
    op.OpAssign? && op.assign.taskId in db.sources && op.assign.taskId !in db.tasks
      && PullTaken(db, op.assign.taskId, db.sources[op.assign.taskId].kind, db.sources[op.assign.taskId].ref)
  }

  /** One step keeps uniqueness exactly when it is not a successful escape. */
  lemma StepKeepsUniqueIff(w: World, op: Op, now: nat, digest: Digest)
    requires DbOk(w.db) && Legal(op) && PullUnique(w.db)
    ensures PullUnique(Apply(w, op, now, digest).db) <==> !(Escapes(w.db, op) && Assign(w.db, op.assign, now).Ok?)
  {
    var db, db' := w.db, Apply(w, op, now, digest).db;
    if op.OpReconstruct? {
      if ReconstructTask(db, op.source, now).Ok? { TriggerKeeps(db, op.source.taskId, SourceRowOf(op.source, now)); }
    } else if op.OpDispatch? {
      DispatchKeepsUnique(db, op.dispatch, now);
    } else if op.OpAssign? {
      var a := op.assign;
      if Assign(db, a, now).Ok? && a.taskId !in db.tasks {
        OpeningKeepsIff(db, a.taskId, NewTask(a.lane, a.nonce, a.summary, now, a.worktree, db.lanes[a.lane].identity.paneId));
      }
    } else {
      forall id ensures OnlyCloses(db, db', id) { OtherOpOnlyCloses(w, op, now, digest, id); }
      ClosingKeeps(db, db');
    }
  }

  function TwoLanes(): map<string, LaneRow> {
    var lane := LaneRow(Identity("%1", "n", "codex", "/r", "s", "s", "codex", "send-keys"), "", "", 0);
    map["a" := lane, "b" := lane]
  }

  function OnePull(): SourceRow { SourceRow("pull", "pull:7", "7", "s", "OPEN", Created, [], None, 0, None) }

  /** Two lanes, one pull under two ids, and the first of them assigned. */
  function TwoTasksOnePull(): Db {
    Db(TwoLanes(), map["t" := NewTask("a", "n", "s", 0, "", "%1")], map["t" := OnePull(), "u" := OnePull()], map[])
  }

  function LaneOf(lane: string): Op { OpRegister(LaneArgs(lane, "%1", "n", "codex", "/r", "s", "s", "codex", None, "", "")) }

  function PullOf(id: string): Op { OpReconstruct(SourceArgs(id, "pull", "pull:7", "7", "s", "OPEN", Created, [], None, None)) }

  function WorkOn(id: string, lane: string): Op { OpAssign(AssignArgs(id, lane, "n", "s", "")) }

  /** Both sources are written while neither has a task, so the trigger has nothing to object to. */
  function BothWritten(): seq<(Op, nat)> {
    [(LaneOf("a"), 0), (LaneOf("b"), 0), (PullOf("t"), 0), (PullOf("u"), 0), (WorkOn("t", "a"), 0)]
  }

  function EscapingOps(): seq<(Op, nat)> { BothWritten() + [(WorkOn("u", "b"), 1)] }

  lemma LanesRegistered(digest: Digest)
    ensures Apply(Apply(EMPTY, LaneOf("a"), 0, digest), LaneOf("b"), 0, digest) == World(Db(TwoLanes(), map[], map[], map[]), map[])
  {
    var db := Db(map["a" := TwoLanes()["a"]], map[], map[], map[]);
    assert Occupant(EMPTY.db, "a").None? && Occupant(db, "b").None?;
    assert Apply(EMPTY, LaneOf("a"), 0, digest) == World(db, map[]);
  }

  lemma PullsWritten(digest: Digest)
    ensures var w := World(Db(TwoLanes(), map[], map[], map[]), map[]);
      Apply(Apply(w, PullOf("t"), 0, digest), PullOf("u"), 0, digest)
        == World(Db(TwoLanes(), map[], map["t" := OnePull(), "u" := OnePull()], map[]), map[])
  {
    assert ValidTaskId("t") && ValidTaskId("u");
  }

  lemma FirstAssigned(digest: Digest)
    ensures Apply(World(Db(TwoLanes(), map[], map["t" := OnePull(), "u" := OnePull()], map[]), map[]), WorkOn("t", "a"), 0, digest)
      == World(TwoTasksOnePull(), map[])
  {
    var db := Db(TwoLanes(), map[], map["t" := OnePull(), "u" := OnePull()], map[]);
    assert ValidTaskId("t") && Occupant(db, "a").None?;
    assert !Blank("s") by { assert !IsSpace("s"[0]); }
  }

  lemma BothWrittenRun(digest: Digest)
    ensures Run(EMPTY, BothWritten(), digest) == World(TwoTasksOnePull(), map[])
  {
    LanesRegistered(digest);
    PullsWritten(digest);
    FirstAssigned(digest);
    var three := [(LaneOf("a"), 0), (LaneOf("b"), 0), (PullOf("t"), 0)];
    RunThree(EMPTY, LaneOf("a"), LaneOf("b"), PullOf("t"), 0, digest);
    RunOne(EMPTY, three, PullOf("u"), 0, digest);
    RunOne(EMPTY, three + [(PullOf("u"), 0)], WorkOn("t", "a"), 0, digest);
    assert three + [(PullOf("u"), 0)] + [(WorkOn("t", "a"), 0)] == BothWritten();
  }

  lemma SecondAssigned()
    ensures var db := TwoTasksOnePull(); var r := Assign(db, WorkOn("u", "b").assign, 1);
      PullUnique(db) && r.Ok? && r.value == PutTask(db, "u", NewTask("b", "n", "s", 1, "", "%1"))
  {
    var db := TwoTasksOnePull();
    assert ValidTaskId("u");
    assert Occupant(db, "b").None? by { assert !OpenIn(db, "t", "b"); }
    assert !Blank("s") by { assert !IsSpace("s"[0]); }
    assert "t"[0] != "u"[0];
  }

  /** A run from the empty ledger in which the last assignment breaks what held until then. */
  lemma AssignEscapes(digest: Digest)
    ensures var before, after := Run(EMPTY, BothWritten(), digest), Run(EMPTY, EscapingOps(), digest);
      AllLegal(EscapingOps()) && PullUnique(before.db) && Assign(before.db, WorkOn("u", "b").assign, 1).Ok? && !PullUnique(after.db)
  {
    BothWrittenRun(digest);
    RunOne(EMPTY, BothWritten(), WorkOn("u", "b"), 1, digest);
    SecondAssigned();
    TwoOpen(PutTask(TwoTasksOnePull(), "u", NewTask("b", "n", "s", 1, "", "%1")));
  }

  lemma TwoOpen(db: Db)
    requires db == PutTask(TwoTasksOnePull(), "u", NewTask("b", "n", "s", 1, "", "%1"))
    ensures !PullUnique(db)
  {
    assert "t"[0] != "u"[0];
    assert OpenPull(db, "t", "7") && OpenPull(db, "u", "7");
  }

  /** Opened again, that ledger's trigger exists, so nobody looks: it opens with the duplicate standing. */
  lemma ReopeningMissesDuplicates(digest: Digest, fail: OpenFailpoint)
    ensures OpenLedger(EMPTY.db, false, NoOpenFailpoint) == (true, Ok(()))
    ensures var db := Run(EMPTY, EscapingOps(), digest).db; OpenLedger(db, true, fail) == (true, Ok(())) && !PullUnique(db)
  {
    AssignEscapes(digest);
  }

  /* ---- runs that write pulls only by dispatching ---- */

  predicate PullsOnlyDispatched(op: Op) { op.OpReconstruct? ==> op.source.kind != "pull" }

  lemma StepKeepsPullHasTask(w: World, op: Op, now: nat, digest: Digest, id: string)
    requires DbOk(w.db) && Legal(op) && PullHasTask(w.db) && PullsOnlyDispatched(op)
    ensures PullRow(Apply(w, op, now, digest).db, id) ==> id in Apply(w, op, now, digest).db.tasks
  {
    StepMonotone(w, op, now, digest, id);
    assert PullRow(w.db, id) ==> id in w.db.tasks;
    if id in w.db.sources { SourceIdsArePlain(w.db, id); }
    if !op.OpReconstruct? && !op.OpDispatch? { SourcesKeepPulls(w, op, now, digest, id); }
  }

  /** Every run that writes pull rows only through `record_dispatch` keeps one open task per pull. */
  lemma {:induction false} RunKeepsUnique(w: World, ops: seq<(Op, nat)>, digest: Digest)
    requires Inv(w, digest) && PullUnique(w.db) && PullHasTask(w.db)
    requires AllLegal(ops) && forall i | 0 <= i < |ops| :: PullsOnlyDispatched(ops[i].0)
    ensures var w' := Run(w, ops, digest); Inv(w', digest) && PullUnique(w'.db) && PullHasTask(w'.db)
  {
    if ops != [] {
      var mid, last := Run(w, ops[..|ops| - 1], digest), ops[|ops| - 1];
      RunKeepsUnique(w, ops[..|ops| - 1], digest);
      ApplyKeeps(mid, last.0, last.1, digest);
      StepKeepsUniqueIff(mid, last.0, last.1, digest);
      forall id ensures PullRow(Apply(mid, last.0, last.1, digest).db, id) ==> id in Apply(mid, last.0, last.1, digest).db.tasks {
        StepKeepsPullHasTask(mid, last.0, last.1, digest, id);
      }
      assert Escapes(mid.db, last.0) ==> PullRow(mid.db, last.0.assign.taskId);
    }
  }

  /* ---- the one writer that does not open the file ---- */

  function Dashes(v: string): nat { if v == "" then 0 else Dashes(v[1..]) + if v[0] == '-' then 1 else 0 }

  predicate LooksLikeUuid(v: string) { |v| == 36 && Dashes(v) == 4 }

  /** A headless lane without a conversation id, whose session id names exactly one transcript. */
  predicate Recoverable(row: LaneRow, transcripts: string -> nat) {
    && row.identity.transport == "claude-print" && row.harnessSessionId == ""
    && LooksLikeUuid(row.identity.sessionId) && transcripts(row.identity.sessionId) == 1
  }

  /** The session backfill, which connects to the file itself: two columns of some lanes, and their clock. */
  function Backfilled(row: LaneRow, transcripts: string -> nat, now: nat): LaneRow {
    if Recoverable(row, transcripts)
    then row.(harnessSessionId := row.identity.sessionId, harnessProjectDir := row.identity.repo, updatedAt := now) else row
  }

  function BackfillSessions(db: Db, transcripts: string -> nat, now: nat): Db {
    db.(lanes := map lane | lane in db.lanes :: Backfilled(db.lanes[lane], transcripts, now))
  }

  lemma {:induction false} DashesAreCounted(v: string)
    ensures Dashes(v) == multiset(v)['-']
  {
    if v != "" {
      DashesAreCounted(v[1..]);
      assert v == [v[0]] + v[1..];
    }
  }

  /** Which lanes are given a conversation id, and what they then hold. */
  lemma BackfillFills(db: Db, transcripts: string -> nat, now: nat, lane: string)
    requires lane in db.lanes
    ensures var row, row' := db.lanes[lane], BackfillSessions(db, transcripts, now).lanes[lane];
      var sid := row.identity.sessionId;
      && BackfillSessions(db, transcripts, now).lanes.Keys == db.lanes.Keys && row'.identity == row.identity
      && if row.identity.transport == "claude-print" && row.harnessSessionId == "" && |sid| == 36 && multiset(sid)['-'] == 4 && transcripts(sid) == 1
         then row'.harnessSessionId == sid && row'.harnessProjectDir == row.identity.repo && row'.updatedAt == now
         else row' == row
  {
    DashesAreCounted(db.lanes[lane].identity.sessionId);
  }

  /** Running it again over the same transcripts changes nothing. */
  lemma BackfillIsIdempotent(db: Db, transcripts: string -> nat, now: nat, later: nat)
    ensures var once := BackfillSessions(db, transcripts, now); BackfillSessions(once, transcripts, later) == once
  {
    var once := BackfillSessions(db, transcripts, now);
    assert BackfillSessions(once, transcripts, later).lanes == once.lanes;
  }

  lemma BackfillKeepsAll(w: World, transcripts: string -> nat, now: nat, digest: Digest)
    requires Inv(w, digest)
    ensures var db' := BackfillSessions(w.db, transcripts, now);
      && Inv(w.(db := db'), digest) && (PullUnique(db') <==> PullUnique(w.db)) && (PullHasTask(db') <==> PullHasTask(w.db))
  {
    var db' := BackfillSessions(w.db, transcripts, now);
    SamePulls(w.db, db');
    forall a, b, lane | OpenIn(db', a, lane) && OpenIn(db', b, lane) ensures a == b { assert OpenIn(w.db, a, lane) && OpenIn(w.db, b, lane); }
    forall id ensures RowOk(db', id) && ResultOk(w.(db := db'), id, digest) { assert RowOk(w.db, id) && ResultOk(w, id, digest); }
    forall key ensures EventOk(db', key) { assert EventOk(w.db, key); }
    assert forall id :: PullRow(db', id) <==> PullRow(w.db, id);
  }

  lemma SamePulls(db: Db, db': Db)
    requires db'.tasks == db.tasks && db'.sources == db.sources
    ensures PullUnique(db') <==> PullUnique(db)
  {
    assert forall id, ref :: OpenPull(db', id, ref) <==> OpenPull(db, id, ref);
  }

  /* ---- a file opened again and again ---- */

  /** One process: it opens the file, and only then does it anything to it; or it is the session backfill. */
  datatype Session = Opens(fail: OpenFailpoint, ops: seq<(Op, nat)>) | Backfills(transcripts: string -> nat, now: nat)

  ghost function AfterSession(w: World, trigger: bool, s: Session, digest: Digest): (World, bool) {
    match s
    case Opens(fail, ops) =>
      var (trigger', r) := OpenLedger(w.db, trigger, fail);
      (if r.Ok? then Run(w, ops, digest) else w, trigger')
    case Backfills(transcripts, now) => (w.(db := BackfillSessions(w.db, transcripts, now)), trigger)
  }

  ghost function AfterSessions(w: World, trigger: bool, sessions: seq<Session>, digest: Digest): (World, bool) {
    if sessions == [] then (w, trigger)
    else
      var (w', trigger') := AfterSessions(w, trigger, sessions[..|sessions| - 1], digest);
      AfterSession(w', trigger', sessions[|sessions| - 1], digest)
  }

  predicate DispatchOnly(s: Session) { s.Opens? ==> AllLegal(s.ops) && forall i | 0 <= i < |s.ops| :: PullsOnlyDispatched(s.ops[i].0) }

  /**
   A file first opened without the trigger has unique pulls whenever it has the trigger, over any number of
   processes that write pulls only by dispatching, whichever of their openings are refused or aborted, and
   whatever the session backfill does in between.
   */
  lemma {:induction false} SessionsKeepUnique(w: World, trigger: bool, sessions: seq<Session>, digest: Digest)
    requires Inv(w, digest) && PullHasTask(w.db) && (trigger ==> PullUnique(w.db))
    requires forall s | s in sessions :: DispatchOnly(s)
    ensures var (w', trigger') := AfterSessions(w, trigger, sessions, digest);
      Inv(w', digest) && PullHasTask(w'.db) && (trigger' ==> PullUnique(w'.db))
  {
    if sessions != [] {
      var front, last := sessions[..|sessions| - 1], sessions[|sessions| - 1];
      SessionsKeepUnique(w, trigger, front, digest);
      var (mid, t) := AfterSessions(w, trigger, front, digest);
      assert last in sessions;
      match last
      case Opens(fail, ops) =>
        OpeningOutcome(mid.db, t, fail);
        if OpenLedger(mid.db, t, fail).1.Ok? { RunKeepsUnique(mid, ops, digest); }
      case Backfills(transcripts, now) => BackfillKeepsAll(mid, transcripts, now, digest);
    }
  }

  /** A lane is as it was, or has been given the conversation id it lacked, which is its own session id. */
  predicate SameLane(row: LaneRow, row': LaneRow) {
    && row'.identity == row.identity
    && (row' == row || (row.harnessSessionId == "" && row.identity.transport == "claude-print" && LooksLikeUuid(row.identity.sessionId)
                        && row'.harnessSessionId == row.identity.sessionId && row'.harnessProjectDir == row.identity.repo))
  }

  /** The same tasks, sources, events, files and lanes, but for conversation ids filled in. */
  ghost predicate OnlySessionsFilled(w: World, w': World) {
    && w'.files == w.files && w'.db.tasks == w.db.tasks && w'.db.sources == w.db.sources && w'.db.events == w.db.events
    && w'.db.lanes.Keys == w.db.lanes.Keys && forall lane | lane in w.db.lanes :: SameLane(w.db.lanes[lane], w'.db.lanes[lane])
  }

  lemma BackfillOnlyFills(w: World, mid: World, transcripts: string -> nat, now: nat)
    requires OnlySessionsFilled(w, mid)
    ensures OnlySessionsFilled(w, mid.(db := BackfillSessions(mid.db, transcripts, now)))
  {
    var db' := BackfillSessions(mid.db, transcripts, now);
    forall lane | lane in w.db.lanes ensures SameLane(w.db.lanes[lane], db'.lanes[lane]) {
      assert SameLane(w.db.lanes[lane], mid.db.lanes[lane]);
    }
  }

  /**
   A file refused for its duplicates stays refused: every operation of the ledger, the two that would resolve
   them by hand included, is a process that has to open it first. All that can still happen to it is that the
   session backfill, which does not, fills in conversation ids; the next opening is refused as before.
   */
  lemma {:induction false} RefusedForGood(w: World, sessions: seq<Session>, digest: Digest, fail: OpenFailpoint)
    requires !PullUnique(w.db)
    ensures var (w', trigger') := AfterSessions(w, false, sessions, digest);
      && !trigger' && OnlySessionsFilled(w, w')
      && !PullUnique(w'.db) && OpenLedger(w'.db, false, fail) == (false, Err(OpenPullTaken))
  {
    DuplicatesIff(w.db);
    if sessions != [] {
      var front, last := sessions[..|sessions| - 1], sessions[|sessions| - 1];
      var (mid, t) := AfterSessions(w, false, front, digest);
      RefusedForGood(w, front, digest, if last.Opens? then last.fail else fail);
      if last.Backfills? { BackfillOnlyFills(w, mid, last.transcripts, last.now); }
      var w' := AfterSessions(w, false, sessions, digest).0;
      SamePulls(w.db, w'.db);
      DuplicatesIff(w'.db);
    }
  }
}
