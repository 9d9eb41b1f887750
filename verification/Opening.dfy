/**
 Opening a ledger file: the four rebuilds, the review column and the open-pull trigger, in the order the
 constructor runs them, each a transaction of its own, from any version of the file `_initialize` leaves.

 A file is described by its layout: which names are tables, which objects have a fixed text, and which of
 those may be missing. Each plan of `Migrations` is shown to fit that layout; the file after any number of
 steps is then one function of the file before, and what every opening keeps is read off it.
 */
module Opening {
  import opened Prelude
  import opened Migrations
  import Tables
  import PullRequests

  /* ---- the file as `_initialize` leaves it ---- */

  /** Tables, names a rebuild may use meanwhile, objects of fixed text, and which of those may be missing. */
  datatype Layout = Layout(tables: set<string>, temps: set<string>, fixed: map<string, Object>, optional: set<string>, inert: set<string>)

  predicate LayoutOk(l: Layout) {
    && l.tables !! l.fixed.Keys && l.temps !! l.tables && l.temps !! l.fixed.Keys && l.inert <= l.tables
    && forall f | f in l.fixed :: !l.fixed[f].Table? && (f in l.optional ==> !l.fixed[f].View?)
         && forall r | r in Needs(l.fixed[f]) :: r in l.tables || (r in l.fixed && l.fixed[r].View?)
  }

  /** Beyond what is laid out there are only tables, and views over inert tables. */
  predicate LaidOut(c: Catalogue, l: Layout) {
    && (forall t | t in l.tables :: t in c && c[t].Table?)
    && l.temps !! c.Keys
    && (forall f | f in l.fixed :: (f in c ==> c[f] == l.fixed[f]) && (f !in l.optional ==> f in c))
    && forall n | n in c && n !in l.fixed :: c[n].Table? || (c[n].View? && c[n].refs <= l.inert)
  }

  lemma LaidOutResolves(c: Catalogue, l: Layout)
    requires LayoutOk(l) && LaidOut(c, l)
    ensures AllResolve(c)
  {
    forall n | n in c ensures Resolves(c, c[n]) {
      forall r | r in Needs(c[n]) ensures r in c && (c[r].Table? || c[r].View?) {
        if n in l.fixed && r !in l.tables { assert r in l.fixed && r !in l.optional; }
      }
    }
  }

  /** A plan that sets aside every fixed object leaning on its table, and puts back what it sets aside. */
  predicate PlanFits(c: Catalogue, l: Layout, p: Plan) {
    && p.table in l.tables && p.table !in l.inert && p.temporary in l.temps
    && p.gone <= p.back.Keys && p.back.Keys <= l.fixed.Keys && (forall b | b in p.back :: p.back[b] == l.fixed[b] && b in c)
    && (forall f | f in l.fixed && f in c && f !in p.back :: p.table !in Needs(l.fixed[f]) && Needs(l.fixed[f]) !! p.back.Keys && !Attached(l.fixed[f], p.table))
    && (forall b | b in p.back && b !in p.gone :: Attached(l.fixed[b], p.table))
    && (forall b, r | b in p.back && r in Needs(l.fixed[b]) && r !in l.tables :: r in p.back)
  }

  lemma PlanIsKept(c: Catalogue, l: Layout, p: Plan)
    requires LayoutOk(l) && LaidOut(c, l) && PlanFits(c, l, p) && p.required <= c[p.table].columns
    ensures Kept(c, p)
  {
    LaidOutResolves(c, l);
  }

  const LEDGER := Layout({"lanes", "tasks", "source_tasks", "items", "links", "prompts"},
    {"lanes_migrated", "tasks_migrated", "source_tasks_migrated", "items_migrated"},
    ItemsViews()[LANE_INDEX := Index("tasks")][PULL_TRIGGER := PullTrigger()], {PULL_TRIGGER}, {"prompts", "links"})

  const NAMES := {"lanes", "tasks", "source_tasks", LANE_INDEX, PULL_TRIGGER}

  /** What the plans need to know of a layout: an index on tasks, a trigger over both task tables, and views over neither. */
  predicate Names(l: Layout) {
    && LayoutOk(l) && l.optional == {PULL_TRIGGER}
    && {"lanes", "tasks", "source_tasks", "items"} <= l.tables - l.inert
    && {"lanes_migrated", "tasks_migrated", "source_tasks_migrated", "items_migrated"} <= l.temps
    && LANE_INDEX in l.fixed && l.fixed[LANE_INDEX] == Index("tasks")
    && PULL_TRIGGER in l.fixed && l.fixed[PULL_TRIGGER] == PullTrigger()
    && forall f | f in l.fixed && f != LANE_INDEX && f != PULL_TRIGGER :: l.fixed[f].View? && l.fixed[f].refs !! NAMES
  }

  lemma ViewsReadItems(v: string)
    requires v in ItemsViews()
    ensures ItemsViews()[v].View? && ItemsViews()[v].refs !! NAMES && v !in NAMES
  {
  }

  lemma FixedNames(f: string)
    requires f in LEDGER.fixed
    ensures f == LANE_INDEX || f == PULL_TRIGGER || (f in ItemsViews() && LEDGER.fixed[f] == ItemsViews()[f])
    ensures LEDGER.fixed[LANE_INDEX] == Index("tasks") && LEDGER.fixed[PULL_TRIGGER] == PullTrigger()
  {
    NamesDiffer();
  }

  lemma LedgerIsLaidOut()
    ensures LayoutOk(LEDGER)
  {
  }

  lemma LedgerLayout()
    ensures Names(LEDGER)
  {
    LedgerIsLaidOut();
    forall f | f in LEDGER.fixed && f != LANE_INDEX && f != PULL_TRIGGER ensures LEDGER.fixed[f].View? && LEDGER.fixed[f].refs !! NAMES {
      FixedNames(f);
      ViewsReadItems(f);
    }
    assert LANE_INDEX in LEDGER.fixed;
    FixedNames(LANE_INDEX);
  }

  lemma LanesFit(c: Catalogue, l: Layout)
    requires LaidOut(c, l) && Names(l)
    ensures PlanFits(c, l, LanesPlan())
  {
  }

  /** Setting aside the trigger alone is enough for a table no view reads. */
  lemma TriggerPlanFits(c: Catalogue, l: Layout, p: Plan)
    requires LaidOut(c, l) && Names(l) && p.table in l.tables - l.inert && p.table in NAMES && p.temporary in l.temps
    requires p.gone == if PULL_TRIGGER in c then {PULL_TRIGGER} else {}
    requires p.gone <= p.back.Keys <= {LANE_INDEX} + p.gone
    requires LANE_INDEX in p.back <==> p.table == "tasks"
    requires forall b | b in p.back :: p.back[b] == l.fixed[b]
    ensures PlanFits(c, l, p)
  {
  }

  lemma TasksFit(c: Catalogue, l: Layout)
    requires LaidOut(c, l) && Names(l)
    ensures PlanFits(c, l, TasksPlan(c))
  {
    NamesDiffer();
    TriggerPlanFits(c, l, TasksPlan(c));
  }

  lemma SourceTasksFit(c: Catalogue, l: Layout)
    requires LaidOut(c, l) && Names(l)
    ensures PlanFits(c, l, SourceTasksPlan(c))
  {
    NamesDiffer();
    TriggerPlanFits(c, l, SourceTasksPlan(c));
  }

  /** Setting aside everything but the index and the trigger is enough for a table neither of them is about. */
  lemma ViewPlanFits(c: Catalogue, l: Layout, p: Plan)
    requires LaidOut(c, l) && Names(l) && p.table in l.tables - l.inert && p.table !in NAMES && p.temporary in l.temps
    requires p.gone == p.back.Keys == l.fixed.Keys - {LANE_INDEX, PULL_TRIGGER}
    requires forall b | b in p.back :: p.back[b] == l.fixed[b]
    ensures PlanFits(c, l, p)
  {
  }

  lemma ItemsFit(c: Catalogue)
    requires LaidOut(c, LEDGER)
    ensures PlanFits(c, LEDGER, ItemsPlan())
  {
    LedgerLayout();
    forall v | v in ItemsViews() ensures v !in NAMES { ViewsReadItems(v); }
    assert LEDGER.fixed.Keys - {LANE_INDEX, PULL_TRIGGER} == ItemsViews().Keys;
    ViewPlanFits(c, LEDGER, ItemsPlan());
  }

  /* ---- what each step leaves ---- */

  const REVIEW := IsReview

  /** A table holds what its plan copies and rows fill their columns; an old one holds nothing its plan would drop. */
  predicate TableOk(o: Object, p: Plan, added: set<Column>) {
    && o.Table? && p.required <= o.columns <= p.columns + added
    && (!o.current ==> o.columns <= p.columns)
    && forall id | id in o.rows :: o.rows[id].Keys == o.columns
  }

  /** A plan's columns and fill do not depend on what is set aside. */
  const NOTHING: Catalogue := map[]

  const FOUR := {"lanes", "tasks", "source_tasks", "items"}

  datatype Which = LanesTable | TasksTable | SourcesTable | ItemsTable

  function NameOf(w: Which): string {
    match w case LanesTable => "lanes" case TasksTable => "tasks" case SourcesTable => "source_tasks" case ItemsTable => "items"
  }

  function PlanOf(w: Which): Plan {
    match w case LanesTable => LanesPlan() case TasksTable => TasksPlan(NOTHING) case SourcesTable => SourceTasksPlan(NOTHING) case ItemsTable => ItemsPlan()
  }

  /** A table against its own plan; the review column may have been added to the sources. */
  predicate TableFine(w: Which, o: Object) { TableOk(o, PlanOf(w), if w.SourcesTable? then {REVIEW} else {}) }

  /** The file as `_initialize` leaves it, whatever version it was written by. */
  predicate FileOk(c: Catalogue) {
    LaidOut(c, LEDGER) && forall w: Which {:trigger TableFine(w, c[NameOf(w)])} :: NameOf(w) in c && TableFine(w, c[NameOf(w)])
  }

  function NewTables(): Catalogue {
    map["lanes" := Table(true, LanesPlan().columns, map[]), "tasks" := Table(true, TasksPlan(NOTHING).columns, map[]),
        "source_tasks" := Table(true, SourceTasksPlan(NOTHING).columns + {REVIEW}, map[]), "items" := Table(true, ItemsPlan().columns, map[]),
        "links" := Table(true, {}, map[]), "prompts" := Table(true, {}, map[])]
  }

  /** A new file: everything `_initialize` creates, which is everything but the trigger. */
  function NewFile(): Catalogue { (LEDGER.fixed - LEDGER.optional) + NewTables() }

  lemma NewIsLaidOut(l: Layout, tables: Catalogue)
    requires LayoutOk(l) && tables.Keys == l.tables && forall t | t in tables :: tables[t].Table?
    ensures LaidOut((l.fixed - l.optional) + tables, l)
  {
  }

  lemma NewTablesOk()
    ensures var t := NewTables();
      t.Keys == LEDGER.tables && (forall n | n in t :: t[n].Table? && t[n].rows == map[]) && forall w: Which :: TableFine(w, t[NameOf(w)])
  {
  }

  lemma NewFileOk()
    ensures FileOk(NewFile())
  {
    LedgerLayout();
    NewTablesOk();
    NewIsLaidOut(LEDGER, NewTables());
  }

  type LedgerFile = c: Catalogue | FileOk(c) ghost witness (NewFileOk(); NewFile())

  lemma PlansAgree(c: Catalogue, o: Object)
    requires o.Table?
    ensures Migrated(o, TasksPlan(c)) == Migrated(o, TasksPlan(NOTHING)) && TasksPlan(c).required == TasksPlan(NOTHING).required
    ensures Migrated(o, SourceTasksPlan(c)) == Migrated(o, SourceTasksPlan(NOTHING)) && SourceTasksPlan(c).required == SourceTasksPlan(NOTHING).required
  {
  }

  function Upgraded(o: Object, p: Plan): Object
    requires o.Table?
  {
    if o.current then o else Migrated(o, p)
  }

  /** ALTER TABLE ... ADD COLUMN: every row reads NULL there. */
  function Reviewed(o: Object): Object
    requires o.Table?
  {
    if REVIEW in o.columns then o else Table(o.current, o.columns + {REVIEW}, map id | id in o.rows :: o.rows[id][REVIEW := None])
  }

  function Assembled(c: Catalogue, lanes: Object, tasks: Object, sources: Object, items: Object, trigger: bool): Catalogue {
    var d := c["lanes" := lanes]["tasks" := tasks]["source_tasks" := sources]["items" := items];
    if trigger then d[PULL_TRIGGER := PullTrigger()] else d
  }

  function LanesAt(c: LedgerFile, k: nat): Object
  {
    if k >= 1 then Upgraded(c["lanes"], LanesPlan()) else c["lanes"]
  }

  function TasksAt(c: LedgerFile, k: nat): Object
  {
    if k >= 2 then Upgraded(c["tasks"], TasksPlan(NOTHING)) else c["tasks"]
  }

  function SourcesAt(c: LedgerFile, k: nat): Object
  {
    var widened := if k >= 3 then Upgraded(c["source_tasks"], SourceTasksPlan(NOTHING)) else c["source_tasks"];
    if k >= 4 then Reviewed(widened) else widened
  }

  function ItemsAt(c: LedgerFile, k: nat): Object
  {
    if k >= 6 then Upgraded(c["items"], ItemsPlan()) else c["items"]
  }

  /** The file after the first `k` of the six steps. */
  function Stage(c: LedgerFile, k: nat): Catalogue
  {
    Assembled(c, LanesAt(c, k), TasksAt(c, k), SourcesAt(c, k), ItemsAt(c, k), k >= 5)
  }

  /** Every row under its key, every column, and every value. */
  predicate AllKept(o: Object, o': Object) { RowsKept(o, o') && o.columns <= o'.columns }

  lemma UpgradeKeeps(o: Object, p: Plan, added: set<Column>)
    requires TableOk(o, p, added)
    ensures TableOk(Upgraded(o, p), p, added) && AllKept(o, Upgraded(o, p)) && Upgraded(o, p).current
  {
  }

  lemma ReviewKeeps(o: Object, p: Plan)
    requires TableOk(o, p, {REVIEW}) && o.current
    ensures TableOk(Reviewed(o), p, {REVIEW}) && AllKept(o, Reviewed(o)) && Reviewed(o).current && REVIEW in Reviewed(o).columns
    ensures REVIEW !in o.columns ==> forall id | id in o.rows :: Reviewed(o).rows[id][REVIEW] == None
  {
  }

  lemma LaidOutStays(c: Catalogue, t: string, o: Object)
    requires LaidOut(c, LEDGER) && t in LEDGER.tables && o.Table? && LayoutOk(LEDGER)
    ensures LaidOut(c[t := o], LEDGER)
  {
  }

  lemma TriggerFits(c: Catalogue)
    requires LaidOut(c, LEDGER) && Names(LEDGER)
    ensures LaidOut(c[PULL_TRIGGER := PullTrigger()], LEDGER)
  {
  }

  lemma AssembledHolds(c: Catalogue, lanes: Object, tasks: Object, sources: Object, items: Object, trigger: bool)
    ensures var d := Assembled(c, lanes, tasks, sources, items, trigger);
      && d.Keys == c.Keys + FOUR + (if trigger then {PULL_TRIGGER} else {})
      && d["lanes"] == lanes && d["tasks"] == tasks && d["source_tasks"] == sources && d["items"] == items
      && forall n | n in c && n !in FOUR && n != PULL_TRIGGER :: d[n] == c[n]
  {
    NamesDiffer();
  }

  lemma AssembledIsLaidOut(c: Catalogue, lanes: Object, tasks: Object, sources: Object, items: Object, trigger: bool)
    requires LaidOut(c, LEDGER) && lanes.Table? && tasks.Table? && sources.Table? && items.Table?
    ensures LaidOut(Assembled(c, lanes, tasks, sources, items, trigger), LEDGER)
  {
    LedgerLayout();
    var c1 := c["lanes" := lanes];
    LaidOutStays(c, "lanes", lanes);
    LaidOutStays(c1, "tasks", tasks);
    LaidOutStays(c1["tasks" := tasks], "source_tasks", sources);
    LaidOutStays(c1["tasks" := tasks]["source_tasks" := sources], "items", items);
    TriggerFits(c1["tasks" := tasks]["source_tasks" := sources]["items" := items]);
  }

  lemma LanesPart(c: LedgerFile, k: nat)
    ensures TableFine(LanesTable, LanesAt(c, k)) && AllKept(c["lanes"], LanesAt(c, k))
  {
    assert TableFine(LanesTable, c[NameOf(LanesTable)]);
    UpgradeKeeps(c["lanes"], LanesPlan(), {});
  }

  lemma TasksPart(c: LedgerFile, k: nat)
    ensures TableFine(TasksTable, TasksAt(c, k)) && AllKept(c["tasks"], TasksAt(c, k))
  {
    assert TableFine(TasksTable, c[NameOf(TasksTable)]);
    UpgradeKeeps(c["tasks"], TasksPlan(NOTHING), {});
  }

  lemma SourcesPart(c: LedgerFile, k: nat)
    ensures TableFine(SourcesTable, SourcesAt(c, k)) && AllKept(c["source_tasks"], SourcesAt(c, k))
  {
    assert TableFine(SourcesTable, c[NameOf(SourcesTable)]);
    UpgradeKeeps(c["source_tasks"], SourceTasksPlan(NOTHING), {REVIEW});
    ReviewKeeps(Upgraded(c["source_tasks"], SourceTasksPlan(NOTHING)), SourceTasksPlan(NOTHING));
  }

  lemma ItemsPart(c: LedgerFile, k: nat)
    ensures TableFine(ItemsTable, ItemsAt(c, k)) && AllKept(c["items"], ItemsAt(c, k))
  {
    assert TableFine(ItemsTable, c[NameOf(ItemsTable)]);
    UpgradeKeeps(c["items"], ItemsPlan(), {});
  }

  lemma PartsKeep(c: LedgerFile, k: nat)
    ensures TableFine(LanesTable, LanesAt(c, k)) && TableFine(TasksTable, TasksAt(c, k))
    ensures TableFine(SourcesTable, SourcesAt(c, k)) && TableFine(ItemsTable, ItemsAt(c, k))
    ensures AllKept(c["lanes"], LanesAt(c, k)) && AllKept(c["tasks"], TasksAt(c, k))
    ensures AllKept(c["source_tasks"], SourcesAt(c, k)) && AllKept(c["items"], ItemsAt(c, k))
  {
    LanesPart(c, k);
    TasksPart(c, k);
    SourcesPart(c, k);
    ItemsPart(c, k);
  }

  /** Every row, every column and every object is still there; the trigger may have come. */
  predicate Survives(c: Catalogue, c': Catalogue) {
    && FOUR <= c.Keys && c.Keys <= c'.Keys <= c.Keys + {PULL_TRIGGER}
    && AllKept(c["lanes"], c'["lanes"]) && AllKept(c["tasks"], c'["tasks"])
    && AllKept(c["source_tasks"], c'["source_tasks"]) && AllKept(c["items"], c'["items"])
    && forall n | n in c && n !in FOUR :: c'[n] == c[n]
  }

  lemma AssembledSurvives(c: Catalogue, lanes: Object, tasks: Object, sources: Object, items: Object, trigger: bool)
    requires FOUR <= c.Keys && (PULL_TRIGGER in c ==> c[PULL_TRIGGER] == PullTrigger())
    requires AllKept(c["lanes"], lanes) && AllKept(c["tasks"], tasks) && AllKept(c["source_tasks"], sources) && AllKept(c["items"], items)
    ensures Survives(c, Assembled(c, lanes, tasks, sources, items, trigger))
  {
    AssembledHolds(c, lanes, tasks, sources, items, trigger);
  }

  lemma FileHas(c: LedgerFile)
    ensures FOUR <= c.Keys && c["lanes"].Table? && c["tasks"].Table? && c["source_tasks"].Table? && c["items"].Table?
    ensures PULL_TRIGGER in c ==> c[PULL_TRIGGER] == PullTrigger()
  {
    assert PULL_TRIGGER in LEDGER.fixed && LEDGER.fixed[PULL_TRIGGER] == PullTrigger();
    forall t | t in FOUR ensures t in c && c[t].Table? { assert t in LEDGER.tables; }
  }

  /** What a file of any version holds survives every stage of opening it. */
  lemma StageKeeps(c: LedgerFile, k: nat)
    ensures FileOk(Stage(c, k)) && Survives(c, Stage(c, k))
    ensures PULL_TRIGGER in Stage(c, k) <==> PULL_TRIGGER in c || k >= 5
  {
    var lanes, tasks, sources, items := LanesAt(c, k), TasksAt(c, k), SourcesAt(c, k), ItemsAt(c, k);
    PartsKeep(c, k);
    FileHas(c);
    AssembledIsLaidOut(c, lanes, tasks, sources, items, k >= 5);
    AssembledHolds(c, lanes, tasks, sources, items, k >= 5);
    AssembledSurvives(c, lanes, tasks, sources, items, k >= 5);
    NamesDiffer();
    forall w: Which ensures NameOf(w) in Stage(c, k) && TableFine(w, Stage(c, k)[NameOf(w)]) {
      match w case LanesTable => case TasksTable => case SourcesTable => case ItemsTable =>
    }
  }

  /* ---- the steps, and all of them ---- */

  lemma NothingToPutBack(c: Catalogue, back: map<string, Object>, t: string, o: Object)
    requires t !in back && forall b | b in back :: b in c && c[b] == back[b]
    ensures back + c[t := o] == c[t := o]
  {
  }

  lemma FitsLightly(c: Catalogue, l: Layout, p: Plan)
    requires LayoutOk(l) && LaidOut(c, l) && PlanFits(c, l, p)
    ensures p.table in c && c[p.table].Table? && p.table != p.temporary && p.table !in p.gone && p.table !in p.back
    ensures forall b | b in p.back :: b in c && c[b] == p.back[b]
  {
  }

  lemma RebuildIsLocal(c: Catalogue, l: Layout, p: Plan)
    requires LayoutOk(l) && LaidOut(c, l) && PlanFits(c, l, p) && p.required <= c[p.table].columns
    ensures Local(c, p)
  {
    FitsLightly(c, l, p);
    PlanIsKept(c, l, p);
    LocalOnce(c, p);
  }

  lemma LocalOnce(c: Catalogue, p: Plan)
    requires Kept(c, p) && forall b | b in p.back :: b in c && c[b] == p.back[b]
    ensures Local(c, p)
  {
    RebuildGoesThrough(c, p);
    NothingToPutBack(c, p.back, p.table, Migrated(c[p.table], p));
  }

  /** Rebuilding goes through and touches one table. */
  predicate Local(c: Catalogue, p: Plan) {
    && p.table in c && c[p.table].Table? && p.table != p.temporary && p.table !in p.gone
    && Rebuildable(c, p) && Rebuilt(c, p) == c[p.table := Migrated(c[p.table], p)]
  }

  /** One rebuild: the table is current afterwards, or nothing has changed. */
  method Rebuild(schema: Schema, p: Plan, fail: Failpoint) returns (ok: bool)
    requires Local(schema.objects, p) && !p.afterGone.NoFailpoint? && !p.afterBack.NoFailpoint?
    modifies schema
    ensures schema.objects == if ok then old(schema.objects)[p.table := Upgraded(old(schema.objects)[p.table], p)] else old(schema.objects)
    ensures fail.NoFailpoint? ==> ok
  {
    ghost var before := schema.objects;
    var r := schema.Migrate(p, fail);
    ok := r.Ok?;
    if ok { assert r == Ok(r.value) && (r.value || r == Ok(false)); }
    if !Stale(before, p.table) { assert before == before[p.table := before[p.table]]; }
  }

  method AddReviewColumn(schema: Schema, fail: Failpoint) returns (ok: bool)
    requires "source_tasks" in schema.objects && schema.objects["source_tasks"].Table?
    modifies schema
    ensures schema.objects == if ok then old(schema.objects)["source_tasks" := Reviewed(old(schema.objects)["source_tasks"])] else old(schema.objects)
    ensures fail.NoFailpoint? ==> ok
  {
    var o := schema.objects["source_tasks"];
    if REVIEW in o.columns {
      assert schema.objects == schema.objects["source_tasks" := o];
      return true;
    }
    if fail == BeforeAddReviewColumn { return false; }
    var saved := schema.objects;
    schema.objects := saved["source_tasks" := Table(o.current, o.columns + {REVIEW}, map id | id in o.rows :: o.rows[id][REVIEW := None])];
    if fail == AfterAddReviewColumn {
      schema.objects := saved;
      return false;
    }
    return true;
  }

  /* ---- the pull rule on rows ---- */

  const FINISHED := {"complete", "failed", "cancelled"}

  /** The text under a column; NULL, like a missing row, is None. */
  function Cell(o: Object, id: string, k: Column): Option<string>
    requires o.Table?
  {
    if id in o.rows && k in o.rows[id] then o.rows[id][k] else None
  }

  /** A pull row of this number whose task is neither missing nor finished. */
  predicate OpenPullIn(sources: Object, tasks: Object, id: string, ref: string)
    requires sources.Table? && tasks.Table?
  {
    && Cell(sources, id, SourceKind) == Some("pull") && Cell(sources, id, SourceRef) == Some(ref)
    && Cell(tasks, id, Status).Some? && Cell(tasks, id, Status).value !in FINISHED
  }

  ghost predicate UniqueIn(sources: Object, tasks: Object)
    requires sources.Table? && tasks.Table?
  {
    forall a, b, ref :: OpenPullIn(sources, tasks, a, ref) && OpenPullIn(sources, tasks, b, ref) ==> a == b
  }

  /** GROUP BY source_ref HAVING COUNT(*) > 1: the numbers seen, and those seen again. */
  method FindDuplicates(sources: Object, tasks: Object) returns (dupes: set<string>)
    requires sources.Table? && tasks.Table?
    ensures forall ref :: ref in dupes <==> exists a, b :: a != b && OpenPullIn(sources, tasks, a, ref) && OpenPullIn(sources, tasks, b, ref)
  {
    var seen: map<string, string>, todo := map[], sources.rows.Keys;
    dupes := {};
    while todo != {}
      invariant todo <= sources.rows.Keys
      invariant forall ref | ref in seen :: seen[ref] !in todo && OpenPullIn(sources, tasks, seen[ref], ref)
      invariant forall id, ref | OpenPullIn(sources, tasks, id, ref) && id !in todo :: ref in seen && (seen[ref] == id || ref in dupes)
      invariant forall ref | ref in dupes :: exists a, b :: a != b && OpenPullIn(sources, tasks, a, ref) && OpenPullIn(sources, tasks, b, ref)
      decreases |todo|
    {
      var id :| id in todo;
      todo := todo - {id};
      var ref := Cell(sources, id, SourceRef);
      if ref.Some? && OpenPullIn(sources, tasks, id, ref.value) {
        if ref.value in seen { dupes := dupes + {ref.value}; }
        else { seen := seen[ref.value := id]; }
      }
    }
  }

  datatype Refusal = Aborted | Duplicates(refs: set<string>)

  /** The trigger: there already, or created over unique pulls, or nothing has changed. */
  method AddPullTrigger(schema: Schema, fail: Failpoint) returns (r: Result<(), Refusal>)
    requires "source_tasks" in schema.objects && schema.objects["source_tasks"].Table?
    requires "tasks" in schema.objects && schema.objects["tasks"].Table?
    requires PULL_TRIGGER in schema.objects ==> schema.objects[PULL_TRIGGER] == PullTrigger()
    modifies schema
    ensures schema.objects == if r.Ok? then old(schema.objects)[PULL_TRIGGER := PullTrigger()] else old(schema.objects)
    ensures var unique := UniqueIn(old(schema.objects)["source_tasks"], old(schema.objects)["tasks"]);
      && (r.Ok? ==> PULL_TRIGGER in old(schema.objects) || unique)
      && (r.Err? ==> PULL_TRIGGER !in old(schema.objects) && (r.error.Duplicates? <==> !unique))
    ensures fail.NoFailpoint? && r.Err? ==> r.error.Duplicates?
  {
    if PULL_TRIGGER in schema.objects {
      assert schema.objects == schema.objects[PULL_TRIGGER := PullTrigger()];
      return Ok(());
    }
    var sources, tasks := schema.objects["source_tasks"], schema.objects["tasks"];
    var dupes := FindDuplicates(sources, tasks);
    if dupes != {} {
      ghost var ref :| ref in dupes;
      return Err(Duplicates(dupes));
    }
    assert UniqueIn(sources, tasks) by {
      forall a, b, ref | OpenPullIn(sources, tasks, a, ref) && OpenPullIn(sources, tasks, b, ref) ensures a == b { assert ref !in dupes; }
    }
    if fail == BeforePullTrigger { return Err(Aborted); }
    var saved := schema.objects;
    schema.objects := saved[PULL_TRIGGER := PullTrigger()];
    if fail == AfterPullTrigger {
      schema.objects := saved;
      return Err(Aborted);
    }
    return Ok(());
  }

  lemma PutLanes(c: Catalogue, lanes: Object, tasks: Object, sources: Object, items: Object, trigger: bool, o: Object)
    ensures Assembled(c, lanes, tasks, sources, items, trigger)["lanes" := o] == Assembled(c, o, tasks, sources, items, trigger)
  {
    NamesDiffer();
  }

  lemma PutTasks(c: Catalogue, lanes: Object, tasks: Object, sources: Object, items: Object, trigger: bool, o: Object)
    ensures Assembled(c, lanes, tasks, sources, items, trigger)["tasks" := o] == Assembled(c, lanes, o, sources, items, trigger)
  {
    NamesDiffer();
  }

  lemma PutSources(c: Catalogue, lanes: Object, tasks: Object, sources: Object, items: Object, trigger: bool, o: Object)
    ensures Assembled(c, lanes, tasks, sources, items, trigger)["source_tasks" := o] == Assembled(c, lanes, tasks, o, items, trigger)
  {
    NamesDiffer();
  }

  lemma PutItems(c: Catalogue, lanes: Object, tasks: Object, sources: Object, items: Object, trigger: bool, o: Object)
    ensures Assembled(c, lanes, tasks, sources, items, trigger)["items" := o] == Assembled(c, lanes, tasks, sources, o, trigger)
  {
    NamesDiffer();
  }

  lemma Start(c: LedgerFile)
    ensures Stage(c, 0) == c
  {
    FileHas(c);
  }

  /** What holds of every stage, ready for the step that follows it. */
  lemma StageReady(c: LedgerFile, k: nat)
    ensures var s := Stage(c, k);
      && LaidOut(s, LEDGER) && Names(LEDGER) && FOUR <= s.Keys
      && s["lanes"] == LanesAt(c, k) && s["tasks"] == TasksAt(c, k) && s["source_tasks"] == SourcesAt(c, k) && s["items"] == ItemsAt(c, k)
      && TableFine(LanesTable, s["lanes"]) && TableFine(TasksTable, s["tasks"])
      && TableFine(SourcesTable, s["source_tasks"]) && TableFine(ItemsTable, s["items"])
      && (PULL_TRIGGER in s ==> s[PULL_TRIGGER] == PullTrigger())
  {
    LedgerLayout();
    PartsKeep(c, k);
    AssembledIsLaidOut(c, LanesAt(c, k), TasksAt(c, k), SourcesAt(c, k), ItemsAt(c, k), k >= 5);
    AssembledHolds(c, LanesAt(c, k), TasksAt(c, k), SourcesAt(c, k), ItemsAt(c, k), k >= 5);
    FileHas(c);
    NamesDiffer();
  }

  lemma LanesNext(c: LedgerFile)
    ensures var s, p := Stage(c, 0), LanesPlan(); Local(s, p) && Stage(c, 1) == s[p.table := Upgraded(s[p.table], p)]
  {
    var s := Stage(c, 0);
    StageReady(c, 0);
    LanesFit(s, LEDGER);
    RebuildIsLocal(s, LEDGER, LanesPlan());
    PutLanes(c, LanesAt(c, 0), TasksAt(c, 0), SourcesAt(c, 0), ItemsAt(c, 0), false, LanesAt(c, 1));
  }

  lemma TasksNext(c: LedgerFile)
    ensures var s := Stage(c, 1); var p := TasksPlan(s); Local(s, p) && Stage(c, 2) == s[p.table := Upgraded(s[p.table], p)]
  {
    var s := Stage(c, 1);
    StageReady(c, 1);
    TasksFit(s, LEDGER);
    PlansAgree(s, s["tasks"]);
    RebuildIsLocal(s, LEDGER, TasksPlan(s));
    PutTasks(c, LanesAt(c, 1), TasksAt(c, 1), SourcesAt(c, 1), ItemsAt(c, 1), false, TasksAt(c, 2));
  }

  lemma SourcesNext(c: LedgerFile)
    ensures var s := Stage(c, 2); var p := SourceTasksPlan(s); Local(s, p) && Stage(c, 3) == s[p.table := Upgraded(s[p.table], p)]
  {
    var s := Stage(c, 2);
    StageReady(c, 2);
    SourceTasksFit(s, LEDGER);
    PlansAgree(s, s["source_tasks"]);
    RebuildIsLocal(s, LEDGER, SourceTasksPlan(s));
    PutSources(c, LanesAt(c, 2), TasksAt(c, 2), SourcesAt(c, 2), ItemsAt(c, 2), false, SourcesAt(c, 3));
  }

  lemma ReviewNext(c: LedgerFile)
    ensures var s := Stage(c, 3); "source_tasks" in s && s["source_tasks"].Table? && Stage(c, 4) == s["source_tasks" := Reviewed(s["source_tasks"])]
  {
    StageReady(c, 3);
    PutSources(c, LanesAt(c, 3), TasksAt(c, 3), SourcesAt(c, 3), ItemsAt(c, 3), false, SourcesAt(c, 4));
  }

  lemma TriggerNext(c: LedgerFile)
    ensures Stage(c, 5) == Stage(c, 4)[PULL_TRIGGER := PullTrigger()]
  {
  }

  lemma ItemsNext(c: LedgerFile)
    ensures var s, p := Stage(c, 5), ItemsPlan(); Local(s, p) && Stage(c, 6) == s[p.table := Upgraded(s[p.table], p)]
  {
    var s := Stage(c, 5);
    StageReady(c, 5);
    ItemsFit(s);
    RebuildIsLocal(s, LEDGER, ItemsPlan());
    PutItems(c, LanesAt(c, 5), TasksAt(c, 5), SourcesAt(c, 5), ItemsAt(c, 5), true, ItemsAt(c, 6));
  }

  /** Rows that come through under the columns the rule reads answer it as before. */
  lemma SameCell(o: Object, o': Object, id: string, k: Column)
    requires AllKept(o, o') && k in o.columns
    requires forall i | i in o.rows :: o.rows[i].Keys == o.columns
    ensures Cell(o', id, k) == Cell(o, id, k)
  {
  }

  lemma SourcesRead(c: LedgerFile)
    ensures var o := c["source_tasks"]; {SourceKind, SourceRef} <= o.columns && forall i | i in o.rows :: o.rows[i].Keys == o.columns
  {
    assert TableFine(SourcesTable, c[NameOf(SourcesTable)]);
  }

  lemma TasksRead(c: LedgerFile)
    ensures var o := c["tasks"]; Status in o.columns && forall i | i in o.rows :: o.rows[i].Keys == o.columns
  {
    assert TableFine(TasksTable, c[NameOf(TasksTable)]);
  }

  lemma SourceCells(c: LedgerFile, k: nat, id: string)
    ensures Cell(SourcesAt(c, k), id, SourceKind) == Cell(c["source_tasks"], id, SourceKind)
    ensures Cell(SourcesAt(c, k), id, SourceRef) == Cell(c["source_tasks"], id, SourceRef)
  {
    SourcesPart(c, k);
    SourcesRead(c);
    SameCell(c["source_tasks"], SourcesAt(c, k), id, SourceKind);
    SameCell(c["source_tasks"], SourcesAt(c, k), id, SourceRef);
  }

  lemma TaskCells(c: LedgerFile, k: nat, id: string)
    ensures Cell(TasksAt(c, k), id, Status) == Cell(c["tasks"], id, Status)
  {
    TasksPart(c, k);
    TasksRead(c);
    SameCell(c["tasks"], TasksAt(c, k), id, Status);
  }

  lemma SameOpenPull(c: LedgerFile, k: nat, id: string, ref: string)
    ensures OpenPullIn(SourcesAt(c, k), TasksAt(c, k), id, ref) <==> OpenPullIn(c["source_tasks"], c["tasks"], id, ref)
  {
    SourceCells(c, k, id);
    TaskCells(c, k, id);
  }

  /** No stage makes or loses a duplicate. */
  lemma SameRule(c: LedgerFile, k: nat)
    ensures UniqueIn(SourcesAt(c, k), TasksAt(c, k)) <==> UniqueIn(c["source_tasks"], c["tasks"])
    ensures Stage(c, k)["source_tasks"] == SourcesAt(c, k) && Stage(c, k)["tasks"] == TasksAt(c, k)
  {
    StageReady(c, k);
    forall id, ref ensures OpenPullIn(SourcesAt(c, k), TasksAt(c, k), id, ref) <==> OpenPullIn(c["source_tasks"], c["tasks"], id, ref) {
      SameOpenPull(c, k, id, ref);
    }
    if UniqueIn(SourcesAt(c, k), TasksAt(c, k)) {
      forall a, b, ref | OpenPullIn(c["source_tasks"], c["tasks"], a, ref) && OpenPullIn(c["source_tasks"], c["tasks"], b, ref) ensures a == b {
        assert OpenPullIn(SourcesAt(c, k), TasksAt(c, k), a, ref) && OpenPullIn(SourcesAt(c, k), TasksAt(c, k), b, ref);
      }
    }
  }

  /** The three rebuilds and the column that come before the trigger; `k` is how many were committed. */
  method Widen(schema: Schema, fail: Failpoint) returns (ok: bool, ghost k: nat)
    requires FileOk(schema.objects)
    modifies schema
    ensures schema.objects == Stage(old(schema.objects), k) && k <= 4 && (ok ==> k == 4)
    ensures fail.NoFailpoint? ==> ok
  {
    ghost var c := schema.objects;
    Start(c);
    LanesNext(c);
    ok := Rebuild(schema, LanesPlan(), fail);
    k := 0;
    if !ok { return; }
    TasksNext(c);
    ok := Rebuild(schema, TasksPlan(schema.objects), fail);
    k := 1;
    if !ok { return; }
    SourcesNext(c);
    ok := Rebuild(schema, SourceTasksPlan(schema.objects), fail);
    k := 2;
    if !ok { return; }
    ReviewNext(c);
    ok := AddReviewColumn(schema, fail);
    k := if ok then 4 else 3;
  }

  lemma StageFour(c: LedgerFile)
    ensures var s := Stage(c, 4);
      && "source_tasks" in s && s["source_tasks"].Table? && "tasks" in s && s["tasks"].Table?
      && (PULL_TRIGGER in s <==> PULL_TRIGGER in c) && (PULL_TRIGGER in s ==> s[PULL_TRIGGER] == PullTrigger())
      && (UniqueIn(s["source_tasks"], s["tasks"]) <==> UniqueIn(c["source_tasks"], c["tasks"]))
  {
    StageKeeps(c, 4);
    FileHas(Stage(c, 4));
    SameRule(c, 4);
  }

  /** May this file be opened: is the trigger there already, or are its pulls unique? */
  ghost predicate Openable(c: LedgerFile)
  {
    FileHas(c);
    PULL_TRIGGER in c || UniqueIn(c["source_tasks"], c["tasks"])
  }

  /** All six; `k` is how many were committed. */
  method OpenSteps(schema: Schema, fail: Failpoint) returns (r: Result<(), Refusal>, ghost k: nat)
    requires FileOk(schema.objects)
    modifies schema
    ensures schema.objects == Stage(old(schema.objects), k) && k <= 6 && (r.Ok? <==> k == 6)
    ensures !Openable(old(schema.objects)) ==> k <= 4
    ensures fail.NoFailpoint? ==> k == if Openable(old(schema.objects)) then 6 else 4
  {
    ghost var c := schema.objects;
    var ok;
    ok, k := Widen(schema, fail);
    if !ok { return Err(Aborted), k; }
    StageFour(c);
    TriggerNext(c);
    r := AddPullTrigger(schema, fail);
    if r.Err? { return; }
    k := 5;
    ItemsNext(c);
    ok := Rebuild(schema, ItemsPlan(), fail);
    return if ok then Ok(()) else Err(Aborted), if ok then 6 else 5;
  }

  /**
   Opening a file of any version. Every row, column and object survives, whatever happens. Without a failpoint
   it is refused exactly when the trigger is missing and two open tasks share a pull; whatever the failpoint,
   such a file is refused and does not get the trigger. A failure leaves exactly the steps already committed.
   */
  method Open(schema: Schema, fail: Failpoint) returns (r: Result<(), Refusal>)
    requires FileOk(schema.objects)
    modifies schema
    ensures FileOk(schema.objects) && Survives(old(schema.objects), schema.objects)
    ensures fail.NoFailpoint? ==> (r.Ok? <==> Openable(old(schema.objects)))
    ensures !Openable(old(schema.objects)) ==> r.Err? && PULL_TRIGGER !in schema.objects
    ensures r.Ok? ==> PULL_TRIGGER in schema.objects && schema.objects == Stage(old(schema.objects), 6)
    ensures r.Err? ==> exists k: nat :: k <= 5 && schema.objects == Stage(old(schema.objects), k)
  {
    ghost var k;
    r, k := OpenSteps(schema, fail);
    StageKeeps(old(schema.objects), k);
  }

  lemma UpgradeResumes(o: Object, p: Plan, done: bool)
    requires o.Table?
    ensures Upgraded(if done then Upgraded(o, p) else o, p) == Upgraded(o, p)
  {
  }

  lemma ReviewResumes(o: Object, p: Plan, widened: bool, reviewed: bool)
    requires o.Table? && (reviewed ==> widened)
    ensures var w := if widened then Upgraded(o, p) else o;
      Reviewed(Upgraded(if reviewed then Reviewed(w) else w, p)) == Reviewed(Upgraded(o, p))
  {
  }

  lemma StagesAgree(c: LedgerFile, s: LedgerFile, k: nat)
    requires s["lanes"] == LanesAt(c, k) && s["tasks"] == TasksAt(c, k) && s["source_tasks"] == SourcesAt(c, k) && s["items"] == ItemsAt(c, k)
    ensures LanesAt(s, 6) == LanesAt(c, 6) && TasksAt(s, 6) == TasksAt(c, 6) && SourcesAt(s, 6) == SourcesAt(c, 6) && ItemsAt(s, 6) == ItemsAt(c, 6)
  {
    UpgradeResumes(c["lanes"], LanesPlan(), k >= 1);
    UpgradeResumes(c["tasks"], TasksPlan(NOTHING), k >= 2);
    ReviewResumes(c["source_tasks"], SourceTasksPlan(NOTHING), k >= 3, k >= 4);
    UpgradeResumes(c["items"], ItemsPlan(), k >= 6);
  }

  /** An opening cut short anywhere, taken up again, ends as the uninterrupted one; a file already opened stays as it is. */
  lemma ResumingCompletes(c: LedgerFile, k: nat)
    ensures FileOk(Stage(c, k)) && Stage(Stage(c, k), 6) == Stage(c, 6)
  {
    StageKeeps(c, k);
    AssembledHolds(c, LanesAt(c, k), TasksAt(c, k), SourcesAt(c, k), ItemsAt(c, k), k >= 5);
    StagesAgree(c, Stage(c, k), k);
    AssembledTwice(c, LanesAt(c, k), TasksAt(c, k), SourcesAt(c, k), ItemsAt(c, k), k >= 5, LanesAt(c, 6), TasksAt(c, 6), SourcesAt(c, 6), ItemsAt(c, 6));
  }

  lemma AssembledTwice(c: Catalogue, l: Object, t: Object, s: Object, i: Object, trigger: bool, l': Object, t': Object, s': Object, i': Object)
    ensures Assembled(Assembled(c, l, t, s, i, trigger), l', t', s', i', true) == Assembled(c, l', t', s', i', true)
  {
    NamesDiffer();
  }

  /** What was refused stays refused, and what was not does not become so, wherever the opening stopped. */
  lemma RefusalStands(c: LedgerFile, k: nat)
    ensures FileOk(Stage(c, k)) && (Openable(Stage(c, k)) <==> Openable(c) || k >= 5)
  {
    StageKeeps(c, k);
    SameRule(c, k);
  }

  /* ---- rows and the ledger's own tables ---- */

  function StatusText(s: Tables.Status): string {
    match s
    case Created => "created"
    case DeliveryPending => "delivery_pending"
    case Delivered => "delivered"
    case Accepted => "accepted"
    case Running => "running"
    case Complete => "complete"
    case Failed => "failed"
    case Cancelled => "cancelled"
  }

  lemma FinishedIsTerminal(s: Tables.Status)
    ensures StatusText(s) in FINISHED <==> Tables.Terminal(s)
  {
    assert "delivered"[0] != "cancelled"[0] && "accepted"[0] != "complete"[0];
  }

  /** The rows spell what the ledger's tables hold, as far as the rule reads them. */
  ghost predicate Shows(sources: Object, tasks: Object, db: Tables.Db)
    requires sources.Table? && tasks.Table?
  {
    && tasks.rows.Keys == db.tasks.Keys && sources.rows.Keys == db.sources.Keys
    && (forall id | id in db.tasks :: Cell(tasks, id, Status) == Some(StatusText(db.tasks[id].status)))
    && forall id | id in db.sources ::
         Cell(sources, id, SourceKind) == Some(db.sources[id].kind) && Cell(sources, id, SourceRef) == Some(db.sources[id].ref)
  }

  lemma RuleAgrees(sources: Object, tasks: Object, db: Tables.Db)
    requires sources.Table? && tasks.Table? && Shows(sources, tasks, db)
    ensures UniqueIn(sources, tasks) <==> PullRequests.PullUnique(db)
  {
    forall id, ref ensures OpenPullIn(sources, tasks, id, ref) <==> PullRequests.OpenPull(db, id, ref) {
      if id in db.tasks { FinishedIsTerminal(db.tasks[id].status); }
    }
    if UniqueIn(sources, tasks) {
      forall a, b, ref | PullRequests.OpenPull(db, a, ref) && PullRequests.OpenPull(db, b, ref) ensures a == b {
        assert OpenPullIn(sources, tasks, a, ref) && OpenPullIn(sources, tasks, b, ref);
      }
    }
  }

  lemma SameKeys(c: LedgerFile, k: nat)
    ensures SourcesAt(c, k).rows.Keys == c["source_tasks"].rows.Keys && TasksAt(c, k).rows.Keys == c["tasks"].rows.Keys
  {
    SourcesPart(c, k);
    TasksPart(c, k);
  }

  lemma StageShows(c: LedgerFile, db: Tables.Db, k: nat)
    requires (FileHas(c); Shows(c["source_tasks"], c["tasks"], db))
    ensures Shows(SourcesAt(c, k), TasksAt(c, k), db)
  {
    SameKeys(c, k);
    forall id | id in db.tasks ensures Cell(TasksAt(c, k), id, Status) == Some(StatusText(db.tasks[id].status)) { TaskCells(c, k, id); }
    forall id | id in db.sources
      ensures Cell(SourcesAt(c, k), id, SourceKind) == Some(db.sources[id].kind) && Cell(SourcesAt(c, k), id, SourceRef) == Some(db.sources[id].ref)
    {
      SourceCells(c, k, id);
    }
  }

  /** The file opens exactly when the ledger it holds does, and holds the same ledger at every stage. */
  lemma OpensAsTheLedger(c: LedgerFile, db: Tables.Db, k: nat)
    requires (FileHas(c); Shows(c["source_tasks"], c["tasks"], db))
    ensures Openable(c) <==> PullRequests.OpenLedger(db, PULL_TRIGGER in c, PullRequests.NoOpenFailpoint).1.Ok?
    ensures Shows(SourcesAt(c, k), TasksAt(c, k), db)
  {
    FileHas(c);
    RuleAgrees(c["source_tasks"], c["tasks"], db);
    PullRequests.DuplicatesIff(db);
    StageShows(c, db, k);
  }

  lemma NewFileOpens()
    ensures FileOk(NewFile()) && Openable(NewFile()) && PULL_TRIGGER !in NewFile()
  {
    NewFileOk();
    NewTablesOk();
    FileHas(NewFile());
    assert PULL_TRIGGER in LEDGER.optional && PULL_TRIGGER in LEDGER.fixed;
  }
}
