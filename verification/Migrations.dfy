/** The rebuild migrations against a catalogue of tables, views, indexes and triggers. */
module Migrations {
  import opened Prelude

  /*
   A table is rebuilt by creating its successor, copying, dropping the original and renaming; SQLite refuses
   the rename while any view or trigger in the whole catalogue names something that does not exist then.
   */

  /** The columns the four rebuilt tables have had, by name. */
  datatype Column =
    | Id | Lane | PaneNonce | Summary | Status | ResultPath | ResultSha256 | CreatedAt | UpdatedAt | DeliveredAt
    | AcceptedAt | CompletedAt | DeliveryAttemptedAt | WorktreePath | PaneId | SourceKind | SourceUrl | SourceRef | SourceState | EvidenceJson
    | StatusMarker | PromptId | Kind | Body | Weight | StatusReason | ResolvedTo | AckedAt | Nonce | Harness
    | Repo | ServerId | SessionId | Command | HarnessSessionId | HarnessProjectDir | Transport | IsReview

  type Row = map<Column, Option<string>>

  /** `current` says the table's text carries every marker of the schema it should have. */
  datatype Object =
    | Table(current: bool, columns: set<Column>, rows: map<string, Row>)
    | View(refs: set<string>)
    | Index(on: string)
    | Trigger(on: string, refs: set<string>)

  type Catalogue = map<string, Object>

  /** What an object needs to find when it is looked up by name. */
  function Needs(o: Object): set<string> {
    match o
    case View(refs) => refs
    case Trigger(on, refs) => refs + {on}
    case _ => {}
  }

  predicate Resolves(c: Catalogue, o: Object) { forall r | r in Needs(o) :: r in c && (c[r].Table? || c[r].View?) }

  predicate AllResolve(c: Catalogue) { forall n | n in c :: Resolves(c, c[n]) }

  /** Indexes and triggers go with their table. */
  predicate Attached(o: Object, t: string) { (o.Index? || o.Trigger?) && o.on == t }

  function WithoutTable(c: Catalogue, t: string): Catalogue { map n | n in c && n != t && !Attached(c[n], t) :: c[n] }

  datatype Failpoint = NoFailpoint | AfterDropPullTrigger | AfterDropViews | AfterCreate | AfterCopy | AfterDrop | AfterRename
    | AfterRecreatePullTrigger | AfterRecreateViews | BeforeAddReviewColumn | AfterAddReviewColumn | BeforePullTrigger | AfterPullTrigger

  /**
   How one table is rebuilt: its new columns, those the copy cannot do without, and what the others get;
   what is set aside and put back, and the failpoints on either side, passed only when something is.
   */
  datatype Plan = Plan(table: string, temporary: string, columns: set<Column>, required: set<Column>,
    fill: (Column, Row) -> Option<string>, gone: set<string>, back: map<string, Object>,
    afterGone: Failpoint, afterBack: Failpoint)

  function MigratedRow(old_: Row, columns: set<Column>, p: Plan): Row {
    map k | k in p.columns :: if k in columns && k in old_ then old_[k] else p.fill(k, old_)
  }

  function MigratedRows(rows: map<string, Row>, columns: set<Column>, p: Plan): map<string, Row> {
    map id | id in rows :: MigratedRow(rows[id], columns, p)
  }

  function Migrated(o: Object, p: Plan): Object
    requires o.Table?
  {
    Table(true, p.columns, MigratedRows(o.rows, o.columns, p))
  }

  /** Adds what is not there yet: CREATE ... IF NOT EXISTS. */
  function PutBack(c: Catalogue, back: map<string, Object>): Catalogue { back + c }

  /** The catalogue the rename is judged on: the original gone, its successor under a temporary name. */
  function MidRename(c: Catalogue, p: Plan): Catalogue
    requires p.table in c && c[p.table].Table?
  {
    WithoutTable((c - p.gone)[p.temporary := Migrated(c[p.table], p)], p.table)
  }

  predicate Rebuildable(c: Catalogue, p: Plan)
    requires p.table in c && c[p.table].Table?
  {
    && p.table != p.temporary && p.table !in p.gone && p.temporary !in c - p.gone && p.required <= c[p.table].columns
    && AllResolve(MidRename(c, p))
  }

  function Rebuilt(c: Catalogue, p: Plan): Catalogue
    requires p.table in c && c[p.table].Table?
  {
    PutBack((MidRename(c, p) - {p.temporary})[p.table := Migrated(c[p.table], p)], p.back)
  }

  predicate Stale(c: Catalogue, t: string) { t in c && c[t].Table? && !c[t].current }

  class Schema {
    var objects: Catalogue

    constructor (objects: Catalogue)
      ensures this.objects == objects
    {
      this.objects := objects;
    }

    method DropDependents(names: set<string>)
      modifies this
      ensures objects == old(objects) - names
    {
      objects := objects - names;
    }

    method CreateTable(name: string, columns: set<Column>) returns (ok: bool)
      modifies this
      ensures ok <==> name !in old(objects)
      ensures objects == if ok then old(objects)[name := Table(true, columns, map[])] else old(objects)
    {
      ok := name !in objects;
      if ok { objects := objects[name := Table(true, columns, map[])]; }
    }

    /** INSERT ... SELECT, row by row. */
    method CopyRows(p: Plan) returns (ok: bool)
      requires p.table in objects && objects[p.table].Table? && p.table != p.temporary && p.temporary in objects
      requires objects[p.temporary] == Table(true, p.columns, map[])
      modifies this
      ensures ok <==> p.required <= old(objects)[p.table].columns
      ensures objects == if ok then old(objects)[p.temporary := Migrated(old(objects)[p.table], p)] else old(objects)
    {
      var source := objects[p.table];
      if !(p.required <= source.columns) { return false; }
      var copied: map<string, Row>, todo := map[], source.rows.Keys;
      while todo != {}
        invariant todo <= source.rows.Keys
        invariant copied.Keys == source.rows.Keys - todo
        invariant forall id | id in copied :: copied[id] == MigratedRow(source.rows[id], source.columns, p)
        decreases |todo|
      {
        var id :| id in todo;
        copied := copied[id := MigratedRow(source.rows[id], source.columns, p)];
        todo := todo - {id};
      }
      assert copied == MigratedRows(source.rows, source.columns, p);
      objects := objects[p.temporary := Table(true, p.columns, copied)];
      ok := true;
    }

    method DropTable(t: string)
      modifies this
      ensures objects == WithoutTable(old(objects), t)
    {
      objects := WithoutTable(objects, t);
    }

    /** ALTER TABLE ... RENAME TO, refused over any dangling reference. */
    method Rename(from: string, to: string) returns (ok: bool)
      requires from in objects
      modifies this
      ensures ok <==> to !in old(objects) && AllResolve(old(objects))
      ensures objects == if ok then (old(objects) - {from})[to := old(objects)[from]] else old(objects)
    {
      ok := to !in objects && AllResolve(objects);
      if ok { objects := (objects - {from})[to := objects[from]]; }
    }

    method Recreate(back: map<string, Object>)
      modifies this
      ensures objects == PutBack(old(objects), back)
    {
      objects := back + objects;
    }

    method RebuildTx(p: Plan, fail: Failpoint) returns (ok: bool)
      requires p.table in objects && objects[p.table].Table? && p.table != p.temporary && p.table !in p.gone
      requires !p.afterGone.NoFailpoint? && !p.afterBack.NoFailpoint?
      modifies this
      ensures ok ==> Rebuildable(old(objects), p) && objects == Rebuilt(old(objects), p)
      ensures fail.NoFailpoint? ==> (ok <==> Rebuildable(old(objects), p))
    {
      ghost var before := objects;
      DropDependents(p.gone);
      if p.gone != {} && fail == p.afterGone { return false; }
      var created := CreateTable(p.temporary, p.columns);
      if !created || fail == AfterCreate { return false; }
      var copied := CopyRows(p);
      if !copied || fail == AfterCopy { return false; }
      assert objects == (before - p.gone)[p.temporary := Migrated(before[p.table], p)];
      DropTable(p.table);
      if fail == AfterDrop { return false; }
      assert objects == MidRename(before, p);
      var renamed := Rename(p.temporary, p.table);
      if !renamed || fail == AfterRename { return false; }
      Recreate(p.back);
      return p.gone == {} || fail != p.afterBack;
    }

    /** One migration: nothing to do, or the whole rebuild, or exactly the catalogue and rows there were. */
    method Migrate(p: Plan, fail: Failpoint) returns (r: Result<bool, ()>)
      requires p.table != p.temporary && p.table !in p.gone
      requires !p.afterGone.NoFailpoint? && !p.afterBack.NoFailpoint?
      modifies this
      ensures r == Ok(false) <==> p.table in old(objects) && old(objects)[p.table].Table? ==> old(objects)[p.table].current
      ensures r != Ok(true) ==> objects == old(objects)
      ensures r == Ok(true) ==> Stale(old(objects), p.table) && Rebuildable(old(objects), p) && objects == Rebuilt(old(objects), p)
      ensures Stale(old(objects), p.table) && fail.NoFailpoint? ==> (r == Ok(true) <==> Rebuildable(old(objects), p))
    {
      if !Stale(objects, p.table) { return Ok(false); }
      var saved := objects;
      var ok := RebuildTx(p, fail);
      if !ok {
        objects := saved;
        return Err(());
      }
      return Ok(true);
    }
  }

  /* ---- when a rebuild can succeed ---- */

  /** Everything outside what was set aside, and not attached to the table, manages without both. */
  predicate Undependent(c: Catalogue, p: Plan) {
    forall n | n in c && n !in p.gone && n != p.table && !Attached(c[n], p.table) ::
      p.table !in Needs(c[n]) && Needs(c[n]) !! p.gone
  }

  /** A rename never meets a dangling reference exactly when every dependent was set aside first. */
  lemma RebuildableIff(c: Catalogue, p: Plan)
    requires AllResolve(c) && p.table in c && c[p.table].Table? && p.table != p.temporary && p.table !in p.gone
    requires p.temporary !in c && p.required <= c[p.table].columns
    requires forall g | g in p.gone && g in c :: c[g].View? || c[g].Trigger?
    requires forall g | g in p.gone && g !in c :: forall n | n in c :: g !in Needs(c[n])
    ensures Rebuildable(c, p) <==> Undependent(c, p)
  {
    var mid := MidRename(c, p);
    forall n | n in c && n !in p.gone && n != p.table && !Attached(c[n], p.table)
      ensures Resolves(mid, mid[n]) <==> p.table !in Needs(c[n]) && Needs(c[n]) !! p.gone
    {
      assert n in mid && mid[n] == c[n] && Resolves(c, c[n]);
      if p.table !in Needs(c[n]) && Needs(c[n]) !! p.gone {
        forall r | r in Needs(c[n]) ensures r in mid && (mid[r].Table? || mid[r].View?) { assert r in c && r != p.temporary; }
      }
    }
    assert Resolves(mid, mid[p.temporary]);
    if Undependent(c, p) {
      forall n | n in mid ensures Resolves(mid, mid[n]) { assert n == p.temporary || (n in c && n !in p.gone && !Attached(c[n], p.table)); }
    }
  }

  /** The rows come through: the same keys, and every old value under a column both tables have. */
  predicate RowsKept(o: Object, o': Object) {
    && o.Table? && o'.Table? && o'.rows.Keys == o.rows.Keys
    && forall id, k | id in o.rows && k in o.columns && k in o'.columns && k in o.rows[id] ::
         k in o'.rows[id] && o'.rows[id][k] == o.rows[id][k]
  }

  /* ---- the four plans ---- */

  const PULL_TRIGGER := "one_open_pull_per_source_ref"

  const LANE_INDEX := "one_open_task_per_lane"

  function PullTrigger(): Object { Trigger("source_tasks", {"source_tasks", "tasks"}) }

  function ItemsViews(): map<string, Object> {
    map["unacknowledged" := View({"items"}), "live_parameters" := View({"items"}), "open_questions" := View({"items"}),
        "needs_review" := View({"items"}), "possibility_count" := View({"live_parameters"}), "conflicts" := View({"links", "items"})]
  }

  function NoFill(k: Column, row: Row): Option<string> { None }

  /** No attempt was recorded; a worktree or pane never is a guess. */
  function TaskFill(k: Column, row: Row): Option<string> { if k == DeliveryAttemptedAt then None else Some("") }

  function TasksPlan(c: Catalogue): Plan {
    var kept := {Id, Lane, PaneNonce, Summary, Status, ResultPath, ResultSha256, CreatedAt, UpdatedAt,
                 DeliveredAt, AcceptedAt, CompletedAt};
    Plan("tasks", "tasks_migrated", kept + {DeliveryAttemptedAt, WorktreePath, PaneId}, kept, TaskFill,
         if PULL_TRIGGER in c then {PULL_TRIGGER} else {},
         map[LANE_INDEX := Index("tasks")] + if PULL_TRIGGER in c then map[PULL_TRIGGER := PullTrigger()] else map[],
         AfterDropPullTrigger, AfterRecreatePullTrigger)
  }

  function SourceTasksPlan(c: Catalogue): Plan {
    var kept := {Id, SourceKind, SourceUrl, SourceRef, Summary, SourceState, Status, EvidenceJson,
                 StatusMarker, UpdatedAt};
    Plan("source_tasks", "source_tasks_migrated", kept, kept, NoFill,
         if PULL_TRIGGER in c then {PULL_TRIGGER} else {}, if PULL_TRIGGER in c then map[PULL_TRIGGER := PullTrigger()] else map[],
         AfterDropPullTrigger, AfterRecreatePullTrigger)
  }

  function ItemsPlan(): Plan {
    var kept := {Id, PromptId, Kind, Body, Weight, Status, StatusReason, ResolvedTo, AckedAt};
    Plan("items", "items_migrated", kept, kept, NoFill, ItemsViews().Keys, ItemsViews(), AfterDropViews, AfterRecreateViews)
  }

  /** A lane recorded before transports were is given the one it was in fact driven by. */
  function LaneFill(k: Column, row: Row): Option<string> {
    if k == Transport then Some(if Harness in row && row[Harness] == Some("copilot-acp") then "acp" else "send-keys") else Some("")
  }

  function LanesPlan(): Plan {
    var kept := {Lane, PaneId, Nonce, Harness, Repo, ServerId, SessionId, Command, UpdatedAt};
    Plan("lanes", "lanes_migrated", kept + {HarnessSessionId, HarnessProjectDir, Transport}, kept, LaneFill, {}, map[],
         AfterRename, AfterRename)
  }

  /**
   A catalogue as the ledger keeps it around one table: everything resolves, what the plan sets aside is
   what it puts back, and nothing else leans on the table or on anything set aside.
   */
  predicate Kept(c: Catalogue, p: Plan) {
    && AllResolve(c) && p.table in c && c[p.table].Table? && p.required <= c[p.table].columns
    && p.table != p.temporary && p.temporary !in c && p.table !in p.gone && p.table !in p.back && p.temporary !in p.back
    && p.gone <= p.back.Keys
    && (forall b | b in p.back :: (b in c ==> c[b] == p.back[b]) && !p.back[b].Table? && p.temporary !in Needs(p.back[b]))
    && (forall b | b in p.back :: forall r | r in Needs(p.back[b]) :: r in p.back || (r in c && c[r].Table?))
    && (forall b, r | b in p.back && r in Needs(p.back[b]) && r in p.back :: p.back[r].View?)
    && (forall n | n in c && n !in p.back && n != p.table ::
          p.table !in Needs(c[n]) && p.temporary !in Needs(c[n]) && Needs(c[n]) !! p.back.Keys && !Attached(c[n], p.table))
    && (forall b | b in p.back && b in c && b !in p.gone :: Attached(p.back[b], p.table) || (p.table !in Needs(p.back[b]) && Needs(p.back[b]) !! p.gone))
  }

  /** The rebuild of such a table always goes through, and changes nothing but the table. */
  lemma RebuildGoesThrough(c: Catalogue, p: Plan)
    requires Kept(c, p)
    ensures Rebuildable(c, p) && Rebuilt(c, p) == p.back + c[p.table := Migrated(c[p.table], p)]
  {
    var mid := MidRename(c, p);
    forall n | n in mid ensures Resolves(mid, mid[n]) {
      if n != p.temporary {
        assert n in c && n !in p.gone && mid[n] == c[n] && Resolves(c, c[n]);
        assert p.table !in Needs(c[n]) && Needs(c[n]) !! p.gone;
        forall r | r in Needs(c[n]) ensures r in mid && (mid[r].Table? || mid[r].View?) { assert r in c && r != p.temporary; }
      }
    }
    RebuiltIsLocal(c, p);
  }

  lemma RebuiltIsLocal(c: Catalogue, p: Plan)
    requires p.table in c && c[p.table].Table? && p.temporary !in c && p.table != p.temporary && p.table !in p.gone && p.table !in p.back
    requires forall n | n in c && (n in p.gone || Attached(c[n], p.table)) :: n in p.back
    requires forall b | b in p.back && b in c :: c[b] == p.back[b]
    ensures Rebuilt(c, p) == p.back + c[p.table := Migrated(c[p.table], p)]
  {
  }

  /** Afterwards every reference resolves again. */
  lemma RebuiltResolves(c: Catalogue, p: Plan)
    requires Kept(c, p)
    ensures AllResolve(Rebuilt(c, p))
  {
  }

  /** A catalogue that has a dependent of the table which nobody set aside cannot be rebuilt. */
  lemma ForgottenDependentBlocks(c: Catalogue, p: Plan, n: string)
    requires p.table in c && c[p.table].Table? && p.table != p.temporary && n in c && n !in p.gone && n != p.temporary && n != p.table
    requires !Attached(c[n], p.table) && (p.table in Needs(c[n]) || exists g :: g in p.gone && g in Needs(c[n]) && g != p.temporary)
    ensures !Rebuildable(c, p)
  {
    var mid := MidRename(c, p);
    assert n in mid && mid[n] == c[n];
    if p.table in Needs(c[n]) { assert p.table !in mid; }
    else {
      var g :| g in p.gone && g in Needs(c[n]) && g != p.temporary;
      assert g !in mid;
    }
  }

  /** Putting back what is there already changes nothing; an absent index is created. */
  lemma PutBackTwo(d: Catalogue, index: string, trigger: string, i: Object, t: Object)
    requires index != trigger && (index in d ==> d[index] == i) && (trigger in d ==> d[trigger] == t)
    ensures (map[index := i] + if trigger in d then map[trigger := t] else map[]) + d == d[index := i]
  {
  }

  /**
   The tasks rebuild keeps every object and every row, restores the index, and leaves the pull trigger exactly
   as it was. Columns an old table lacks read as not recorded: no attempt, and empty text, never a guess.
   */
  lemma TasksRebuilt(c: Catalogue)
    requires Kept(c, TasksPlan(c))
    ensures var p := TasksPlan(c); var c' := Rebuilt(c, p);
      && Rebuildable(c, p) && AllResolve(c')
      && RowsKept(c["tasks"], c'["tasks"])
      && c'["tasks"].columns == {Id, Lane, PaneNonce, Summary, Status, ResultPath, ResultSha256, CreatedAt, UpdatedAt, DeliveryAttemptedAt,
                                 DeliveredAt, AcceptedAt, CompletedAt, WorktreePath, PaneId}
      && (forall id, k | id in c["tasks"].rows && k in {DeliveryAttemptedAt, WorktreePath, PaneId} && k !in c["tasks"].columns ::
            k in c'["tasks"].rows[id] && c'["tasks"].rows[id][k] == if k == DeliveryAttemptedAt then None else Some(""))
      && c' == c[p.table := Migrated(c[p.table], p)][LANE_INDEX := Index("tasks")]
      && (PULL_TRIGGER in c' <==> PULL_TRIGGER in c)
  {
    var p := TasksPlan(c);
    RebuildGoesThrough(c, p);
    RebuiltResolves(c, p);
    NamesDiffer();
    PutBackTwo(c[p.table := Migrated(c[p.table], p)], LANE_INDEX, PULL_TRIGGER, Index("tasks"), PullTrigger());
  }

  lemma NamesDiffer()
    ensures LANE_INDEX != PULL_TRIGGER && PULL_TRIGGER != "tasks" && LANE_INDEX != "tasks" && PULL_TRIGGER != "source_tasks"
  {
    assert LANE_INDEX[9] == 't' && PULL_TRIGGER[9] == 'p';
  }

  /** Had the trigger been left in place, its reference to the dropped table would have stopped the rename. */
  lemma TriggerMustGoFirst(c: Catalogue, p: Plan)
    requires p.table == "tasks" && p.temporary == "tasks_migrated" && p.gone == {}
    requires "tasks" in c && c["tasks"].Table? && PULL_TRIGGER in c && c[PULL_TRIGGER] == PullTrigger()
    ensures !Rebuildable(c, p)
  {
    ForgottenDependentBlocks(c, p, PULL_TRIGGER);
  }

  lemma PutBackOne(d: Catalogue, trigger: string, t: Object)
    requires trigger in d ==> d[trigger] == t
    ensures (if trigger in d then map[trigger := t] else map[]) + d == d
  {
  }

  /** The source_tasks rebuild keeps every other object and every row, and leaves the pull trigger exactly as it was. */
  lemma SourceTasksRebuilt(c: Catalogue)
    requires Kept(c, SourceTasksPlan(c))
    ensures var p := SourceTasksPlan(c); var c' := Rebuilt(c, p);
      && Rebuildable(c, p) && AllResolve(c')
      && RowsKept(c["source_tasks"], c'["source_tasks"])
      && c'["source_tasks"].columns == {Id, SourceKind, SourceUrl, SourceRef, Summary, SourceState, Status, EvidenceJson, StatusMarker, UpdatedAt}
      && c' == c[p.table := Migrated(c[p.table], p)]
      && (PULL_TRIGGER in c' <==> PULL_TRIGGER in c)
  {
    var p := SourceTasksPlan(c);
    NamesDiffer();
    RebuildGoesThrough(c, p);
    RebuiltResolves(c, p);
    PutBackOne(c[p.table := Migrated(c[p.table], p)], PULL_TRIGGER, PullTrigger());
  }

  /** Without putting it back, the trigger would go down with its own table, silently. */
  lemma TriggerGoesWithItsTable(c: Catalogue, p: Plan)
    requires p.table == "source_tasks" && p.temporary == "source_tasks_migrated" && PULL_TRIGGER !in p.back
    requires "source_tasks" in c && c["source_tasks"].Table? && PULL_TRIGGER in c && c[PULL_TRIGGER] == PullTrigger()
    ensures PULL_TRIGGER !in Rebuilt(c, p)
  {
    assert Attached(c[PULL_TRIGGER], "source_tasks");
  }

  /** The items rebuild keeps every row and leaves all six dependent views in place, whether or not each was there before. */
  lemma ItemsRebuilt(c: Catalogue)
    requires Kept(c, ItemsPlan())
    ensures var p := ItemsPlan(); var c' := Rebuilt(c, p);
      && Rebuildable(c, p) && AllResolve(c')
      && RowsKept(c["items"], c'["items"])
      && c'["items"].columns == {Id, PromptId, Kind, Body, Weight, Status, StatusReason, ResolvedTo, AckedAt}
      && c' == ItemsViews() + c["items" := Migrated(c["items"], p)]
      && (forall v | v in ItemsViews() :: v in c' && c'[v] == ItemsViews()[v])
      && {"unacknowledged", "live_parameters", "open_questions", "needs_review", "possibility_count", "conflicts"} == ItemsViews().Keys
  {
    RebuildGoesThrough(c, ItemsPlan());
    RebuiltResolves(c, ItemsPlan());
  }

  /** Each of the six has to be dropped first, the one that reads `items` only through another view included. */
  lemma EveryViewMustGoFirst(c: Catalogue, p: Plan, v: string)
    requires p.table == "items" && p.temporary == "items_migrated" && v in ItemsViews() && p.gone == ItemsViews().Keys - {v}
    requires "items" in c && c["items"].Table? && v in c && c[v] == ItemsViews()[v]
    ensures !Rebuildable(c, p)
  {
    ForgottenDependentBlocks(c, p, v);
  }

  /**
   The lanes rebuild changes nothing but the table and keeps its every row. A lane recorded before transports
   were gets the one it was driven by; unresolved session ids stay empty.
   */
  lemma LanesRebuilt(c: Catalogue)
    requires Kept(c, LanesPlan())
    ensures var p := LanesPlan(); var c' := Rebuilt(c, p);
      && Rebuildable(c, p) && AllResolve(c')
      && RowsKept(c["lanes"], c'["lanes"])
      && c'["lanes"].columns == {Lane, PaneId, Nonce, Harness, Repo, ServerId, SessionId, Command, HarnessSessionId, HarnessProjectDir, Transport, UpdatedAt}
      && c' == c["lanes" := Migrated(c["lanes"], p)]
      && forall id, k | id in c["lanes"].rows && k in {HarnessSessionId, HarnessProjectDir, Transport} && k !in c["lanes"].columns ::
           k in c'["lanes"].rows[id] && c'["lanes"].rows[id][k] == Some(
             if k != Transport then "" else if Harness in c["lanes"].rows[id] && c["lanes"].rows[id][Harness] == Some("copilot-acp") then "acp" else "send-keys")
  {
    RebuildGoesThrough(c, LanesPlan());
    RebuiltResolves(c, LanesPlan());
  }
}
