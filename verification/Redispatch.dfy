/**
 The dispatcher's recording command: a redispatch of finished work gets an id of its own, and a
 recording that fails holds the lane before it is reported.
 */
module Redispatch {
  import opened Prelude
  import Decimal
  import opened Ids
  import opened Tables
  import opened LedgerSpec
  import opened LedgerInvariants
  import opened DispatchSteps
  import opened Occupancy
  import opened LedgerClass
  import opened Columns

  function Suffixed(id: string, n: nat): string { id + "-r" + Decimal.Print(n) }

  lemma SuffixInjective(id: string, a: nat, b: nat)
    requires Suffixed(id, a) == Suffixed(id, b)
    ensures a == b && Suffixed(id, a) == id + "-r" + Decimal.Print(a)
  {
    assert Suffixed(id, a)[|id| + 2..] == Decimal.Print(a);
    assert Suffixed(id, b)[|id| + 2..] == Decimal.Print(b);
    Decimal.PrintInjective(a, b);
  }

  /** The suffixes tried before `attempt`, each of them the id of some row. */
  ghost predicate Tried(tasks: map<string, TaskRow>, id: string, attempt: nat, taken: set<string>) {
    && attempt >= 2 && |taken| == attempt - 2 <= |tasks| && taken <= tasks.Keys
    && (forall t | t in taken :: exists k | 2 <= k < attempt :: t == Suffixed(id, k))
    && (forall k | 2 <= k < attempt :: Suffixed(id, k) in tasks)
  }

  lemma TriedOneMore(tasks: map<string, TaskRow>, id: string, attempt: nat, taken: set<string>)
    requires Tried(tasks, id, attempt, taken) && Suffixed(id, attempt) in tasks
    ensures Tried(tasks, id, attempt + 1, taken + {Suffixed(id, attempt)}) && |taken| < |tasks|
  {
    NotTriedBefore(id, attempt, taken);
    Cardinality(taken + {Suffixed(id, attempt)}, tasks.Keys);
  }

  /** Every suffix tried was taken by a different row, so the tries cannot outnumber the rows. */
  method UniqueRedispatchTaskId(tasks: map<string, TaskRow>, id: string) returns (r: string, tries: nat)
    ensures id !in tasks || !Terminal(tasks[id].status) ==> r == id && tries == 0
    ensures id in tasks && Terminal(tasks[id].status) ==>
      && r !in tasks && tries > 0 && r == Suffixed(id, tries + 1)
      && (forall k | 2 <= k <= tries :: Suffixed(id, k) in tasks)
    ensures tries <= |tasks| + 1
  {
    if id !in tasks || !Terminal(tasks[id].status) { return id, 0; }
    var attempt := 2;
    ghost var taken: set<string> := {};
    while true
      invariant Tried(tasks, id, attempt, taken)
      decreases |tasks| - |taken|
    {
      var candidate := Suffixed(id, attempt);
      if candidate !in tasks { return candidate, attempt - 1; }
      TriedOneMore(tasks, id, attempt, taken);
      taken := taken + {candidate};
      attempt := attempt + 1;
    }
  }

  lemma NotTriedBefore(id: string, attempt: nat, taken: set<string>)
    requires forall t | t in taken :: exists k | 2 <= k < attempt :: t == Suffixed(id, k)
    ensures Suffixed(id, attempt) !in taken
  {
    forall k | 2 <= k < attempt ensures Suffixed(id, attempt) != Suffixed(id, k) {
      if Suffixed(id, attempt) == Suffixed(id, k) { SuffixInjective(id, attempt, k); }
    }
  }

  lemma {:induction false} Cardinality<T>(a: set<T>, b: set<T>)
    requires a <= b
    ensures |a| <= |b|
  {
    if a != {} {
      var x :| x in a;
      Cardinality(a - {x}, b - {x});
    }
  }

  /* ---- the command ---- */

  /** What `dispatch.sh` passes: one dispatch that has already happened in a pane. */
  datatype Call = Call(lane: string, task: string, summary: string, paneId: string, panePath: string, paneName: string,
    command: string, serverId: string, sessionId: string, issues: seq<string>, github: string, harness: Option<string>,
    harnessSessionId: string, harnessProjectDir: string, worktree: string, pr: Option<string>, isReview: bool, landed: bool)

  function HarnessByCommand(command: string): Option<string> {
    if command == "codex" then Some("codex")
    else if command == "claude" || command == "claude.exe" then Some("claude")
    else None
  }

  function Join(parts: seq<string>): string {
    if parts == [] then "" else if |parts| == 1 then parts[0] else parts[0] + "," + Join(parts[1..])
  }

  function HarnessOf(c: Call): Option<string> {
    if c.harness.Some? && c.harness.value != "" then c.harness else HarnessByCommand(c.command)
  }

  function UrlOf(c: Call, word: string, pathWord: string, number: string): string {
    if c.github != "" then "https://github.com/" + c.github + "/" + pathWord + "/" + number
    else word + ":" + number + "@" + c.paneName
  }

  /** The source row: a pull when a PR is named, otherwise the primary issue. */
  function SourceOf(c: Call, id: string): SourceArgs
    requires c.issues != []
  {
    var evidence := ["claimed by dispatch.sh for lane " + c.lane, "issues: " + Join(c.issues)];
    if c.pr.Some? && c.pr.value != "" then
      SourceArgs(id, "pull", UrlOf(c, "pull", "pull", c.pr.value), c.pr.value, c.summary, "OPEN", Created,
                 evidence + ["pr: " + c.pr.value], None, Some(c.isReview))
    else
      SourceArgs(id, "issue", UrlOf(c, "issue", "issues", c.issues[0]), c.issues[0], c.summary, "OPEN", Created, evidence, None, None)
  }

  function LaneArgsOf(c: Call, harness: string, nonce: string): LaneArgs {
    LaneArgs(c.lane, c.paneId, nonce, harness, c.panePath, c.serverId, c.sessionId, c.command, None, c.harnessSessionId, c.harnessProjectDir)
  }

  /** The text is the prefix and the parts, a comma between each two. */
  predicate Lists(text: string, prefix: string, parts: seq<string>)
    requires parts != []
    decreases |parts|
  {
    var last := parts[|parts| - 1];
    if |parts| == 1 then text == prefix + last
    else |text| > |last| && text[|text| - |last| - 1..] == "," + last && Lists(text[..|text| - |last| - 1], prefix, parts[..|parts| - 1])
  }

  lemma {:induction false} JoinLists(prefix: string, parts: seq<string>)
    requires parts != []
    ensures Lists(prefix + Join(parts), prefix, parts)
  {
    if |parts| > 1 {
      var front, last := parts[..|parts| - 1], parts[|parts| - 1];
      JoinLists(prefix, front);
      JoinAdds(front, last);
      assert parts == front + [last];
      var text := prefix + Join(parts);
      assert text == (prefix + Join(front)) + ("," + last);
      assert text[..|text| - |last| - 1] == prefix + Join(front);
    }
  }

  lemma {:induction false} JoinAdds(parts: seq<string>, last: string)
    requires parts != []
    ensures Join(parts + [last]) == Join(parts) + "," + last
  {
    if |parts| > 1 {
      JoinAdds(parts[1..], last);
      assert (parts + [last])[1..] == parts[1..] + [last];
      assert Join(parts + [last]) == parts[0] + "," + (Join(parts[1..]) + "," + last);
    } else {
      assert (parts + [last])[1..] == [last];
    }
  }

  predicate NamesPull(c: Call) { c.pr.Some? && c.pr.value != "" }

  /** What the source row must hold of the call: the pull it names, or else its first issue. */
  predicate SourceOfCall(source: SourceRow, c: Call) {
    && source.summary == c.summary && source.state == "OPEN" && source.status.Created? && source.marker.None?
    && |source.evidence| == (if NamesPull(c) then 3 else 2) && source.evidence[0] == "claimed by dispatch.sh for lane " + c.lane
    && (c.issues != [] ==> Lists(source.evidence[1], "issues: ", c.issues)) && (NamesPull(c) ==> source.evidence[2] == "pr: " + c.pr.value)
    && (NamesPull(c) ==>
          && source.kind == "pull" && source.ref == c.pr.value && source.isReview == Some(c.isReview)
          && source.url == (if c.github != "" then "https://github.com/" + c.github + "/pull/" + c.pr.value else "pull:" + c.pr.value + "@" + c.paneName))
    && (!NamesPull(c) ==>
          && c.issues != [] && source.kind == "issue" && source.ref == c.issues[0] && source.isReview.None?
          && source.url == (if c.github != "" then "https://github.com/" + c.github + "/issues/" + c.issues[0] else "issue:" + c.issues[0] + "@" + c.paneName))
  }

  /** What the lane's row must hold of it: the pane as it is, and the harness given or told by its command. */
  predicate LaneOfCall(lane: LaneRow, c: Call, nonce: string) {
    var i := lane.identity;
    && (c.harnessSessionId != "" ==> lane.harnessSessionId == c.harnessSessionId)
    && (c.harnessProjectDir != "" ==> lane.harnessProjectDir == c.harnessProjectDir)
    && i.paneId == c.paneId && i.nonce == nonce && i.repo == c.panePath && i.serverId == c.serverId && i.sessionId == c.sessionId && i.command == c.command
    && (c.harness.Some? && c.harness.value != "" ==> i.harness == c.harness.value)
    && (c.harness.None? || c.harness.value == "" ==>
          (c.command == "codex" && i.harness == "codex") || (c.command in {"claude", "claude.exe"} && i.harness == "claude"))
  }

  /** A new task's row, of the call. */
  predicate TaskOfCall(row: TaskRow, c: Call, nonce: string, now: nat) {
    && row.lane == c.lane && row.paneNonce == nonce && row.paneId == c.paneId && row.summary == c.summary && row.worktreePath == c.worktree
    && row.createdAt == now && row.deliveredAt == Some(now) && row.acceptedAt == (if c.landed then Some(now) else None) && row.resultSha.None?
  }

  /** Another lane's open task, under another id, already works on the pull the call names. */
  predicate HeldElsewhere(db: Db, c: Call, id: string) {
    NamesPull(c) && exists held | held in db.sources ::
      held != id && db.sources[held].kind == "pull" && db.sources[held].ref == c.pr.value && Open(db, held) && db.tasks[held].lane != c.lane
  }

  lemma CallIsRecorded(db: Db, c: Call, harness: string, id: string, nonce: string, now: nat)
    requires c.issues != [] && HarnessOf(c) == Some(harness)
    requires DispatchOk(db, ArgsOf(LaneArgsOf(c, harness, nonce), SourceOf(c, id), c.worktree, c.landed), now)
    ensures var db' := Dispatched(db, ArgsOf(LaneArgsOf(c, harness, nonce), SourceOf(c, id), c.worktree, c.landed), now);
      && id in db'.sources && SourceOfCall(db'.sources[id], c) && c.lane in db'.lanes && LaneOfCall(db'.lanes[c.lane], c, nonce)
    ensures !HeldElsewhere(db, c, id) || !DbOk(db)
  {
    var d := ArgsOf(LaneArgsOf(c, harness, nonce), SourceOf(c, id), c.worktree, c.landed);
    DispatchNames(db, d, now);
    UrlsAre(c);
    JoinLists("issues: ", c.issues);
    if DbOk(db) && HeldElsewhere(db, c, id) {
      var held :| held in db.sources && held != id && db.sources[held].kind == "pull" && db.sources[held].ref == c.pr.value
        && Open(db, held) && db.tasks[held].lane != c.lane;
      PullIsGuarded(db, d, now, held);
    }
  }

  /** A call that says enough: nothing empty, a known harness given or told by the command, and something to refer to. */
  predicate SaysEnough(c: Call, nonce: string) {
    && c.lane != "" && c.paneId != "" && nonce != "" && c.panePath != "" && c.serverId != "" && c.sessionId != "" && c.command != "" && !SaysBlank(c.summary)
    && (if c.harness.Some? && c.harness.value != "" then c.harness.value in {"codex", "copilot", "claude", "pi", "copilot-acp"}
        else c.command in {"codex", "claude", "claude.exe"})
    && c.issues != [] && (NamesPull(c) || c.issues[0] != "")
  }

  /** A new pane: its nonce is not the one the lane is registered under. */
  predicate FreshPane(db: Db, c: Call, nonce: string) { c.lane in db.lanes ==> db.lanes[c.lane].identity.nonce != nonce }

  /** A new pane's call under a new id is recorded exactly when it says enough, no delivery is in doubt in its lane and its pull is not held elsewhere. */
  ghost predicate WillRecord(db: Db, c: Call, id: string, nonce: string) {
    && SaysEnough(c, nonce) && ValidTaskId(id) && !HeldElsewhere(db, c, id)
    && forall p :: OpenIn(db, p, c.lane) ==> !db.tasks[p].status.DeliveryPending?
  }

  lemma CallArgsAre(c: Call, harness: string, id: string, nonce: string)
    requires c.issues != [] && HarnessOf(c) == Some(harness)
    ensures Recordable(ArgsOf(LaneArgsOf(c, harness, nonce), SourceOf(c, id), c.worktree, c.landed)) <==> SaysEnough(c, nonce) && ValidTaskId(id)
  {
    UrlsAre(c);
    assert "OPEN"[0] == 'O' && "OPEN"[1] == 'P' && "OPEN"[2] == 'E' && "OPEN"[3] == 'N';
  }

  lemma CallSucceeds(db: Db, c: Call, harness: string, id: string, nonce: string, now: nat)
    requires DbOk(db) && id !in db.tasks && FreshPane(db, c, nonce) && c.issues != [] && HarnessOf(c) == Some(harness)
    ensures DispatchOk(db, ArgsOf(LaneArgsOf(c, harness, nonce), SourceOf(c, id), c.worktree, c.landed), now) <==> WillRecord(db, c, id, nonce)
  {
    var d := ArgsOf(LaneArgsOf(c, harness, nonce), SourceOf(c, id), c.worktree, c.landed);
    CallArgsAre(c, harness, id, nonce);
    DispatchSucceeds(db, d, now);
    assert forall p :: InTheWay(db, d.laneArgs, p) <==> OpenIn(db, p, c.lane) && db.tasks[p].status.DeliveryPending?;
    assert d.source.kind == "pull" <==> NamesPull(c);
    assert NamesPull(c) ==> d.source.ref == c.pr.value;
  }

  /** What recording a call leaves: its task alone in the lane, its source and its lane's row, and every finished row as it was. */
  lemma CallWrites(db: Db, c: Call, harness: string, id: string, nonce: string, now: nat)
    requires DbOk(db) && c.issues != [] && HarnessOf(c) == Some(harness)
    requires DispatchOk(db, ArgsOf(LaneArgsOf(c, harness, nonce), SourceOf(c, id), c.worktree, c.landed), now)
    ensures var db' := Dispatched(db, ArgsOf(LaneArgsOf(c, harness, nonce), SourceOf(c, id), c.worktree, c.landed), now);
      && SoleOpen(db', c.lane, id) && db'.tasks[id].status.Delivered?
      && (forall other | other in db.tasks && other != id && Terminal(db.tasks[other].status) :: other in db'.tasks && db'.tasks[other] == db.tasks[other])
      && (id !in db.tasks ==> TaskOfCall(db'.tasks[id], c, nonce, now))
      && id in db'.sources && SourceOfCall(db'.sources[id], c) && c.lane in db'.lanes && LaneOfCall(db'.lanes[c.lane], c, nonce)
    ensures !HeldElsewhere(db, c, id)
  {
    var d := ArgsOf(LaneArgsOf(c, harness, nonce), SourceOf(c, id), c.worktree, c.landed);
    DispatchTakesLane(db, d, now);
    CallIsRecorded(db, c, harness, id, nonce, now);
    if id !in db.tasks { DispatchWrites(db, d, now); }
  }

  lemma UrlsAre(c: Call)
    ensures NamesPull(c) ==>
      UrlOf(c, "pull", "pull", c.pr.value) == if c.github != "" then "https://github.com/" + c.github + "/pull/" + c.pr.value else "pull:" + c.pr.value + "@" + c.paneName
    ensures c.issues != [] ==>
      UrlOf(c, "issue", "issues", c.issues[0]) == if c.github != "" then "https://github.com/" + c.github + "/issues/" + c.issues[0] else "issue:" + c.issues[0] + "@" + c.paneName
  {
    var g := "https://github.com/" + c.github;
    if NamesPull(c) {
      assert g + "/" + "pull" + "/" + c.pr.value == g + "/pull/" + c.pr.value;
      assert "pull" + ":" + c.pr.value + "@" + c.paneName == "pull:" + c.pr.value + "@" + c.paneName;
    }
    if c.issues != [] {
      assert g + "/" + "issues" + "/" + c.issues[0] == g + "/issues/" + c.issues[0];
      assert "issue" + ":" + c.issues[0] + "@" + c.paneName == "issue:" + c.issues[0] + "@" + c.paneName;
    }
  }

  /** The note names the attempt and says what went wrong, in the error's own words. */
  function HoldNote(id: string, words: string): string { "record_dispatch failed for task " + id + ": " + words }

  lemma NoteSpelled(id: string, words: string)
    ensures "ledger record failed: " + HoldNote(id, words) == "ledger record failed: record_dispatch failed for task " + id + ": " + words
  {
    var first, second := "ledger record failed: ", "record_dispatch failed for task ";
    assert first + second == "ledger record failed: record_dispatch failed for task ";
    assert first + (second + id + ": " + words) == (first + second) + id + ": " + words;
  }

  /** The recording itself, under an id already chosen. */
  method Attempt(ledger: Ledger, c: Call, id: string, nonce: string, fail: DispatchFailpoint, now: nat) returns (r: Outcome<TaskRow>)
    requires ledger.Valid()
    modifies ledger
    ensures ledger.Valid()
    ensures r.Err? ==> ledger.Now() == old(ledger.Now())
    ensures r.Ok? ==> SoleOpen(ledger.Now(), c.lane, id) && ledger.tasks[id] == r.value && r.value.status.Delivered?
    ensures r.Ok? ==> forall other | other in old(ledger.tasks) && other != id && Terminal(old(ledger.tasks)[other].status) ::
      other in ledger.tasks && ledger.tasks[other] == old(ledger.tasks)[other]
    ensures r.Ok? ==> id in ledger.sources && SourceOfCall(ledger.sources[id], c) && c.lane in ledger.lanes && LaneOfCall(ledger.lanes[c.lane], c, nonce)
    ensures r.Ok? && id !in old(ledger.tasks) ==> TaskOfCall(r.value, c, nonce, now)
    ensures HeldElsewhere(old(ledger.Now()), c, id) ==> r.Err?
    ensures id !in old(ledger.tasks) && FreshPane(old(ledger.Now()), c, nonce) && fail.NoDispatchFailpoint? ==>
      (r.Ok? <==> WillRecord(old(ledger.Now()), c, id, nonce))
  {
    ghost var before := ledger.Now();
    var harness := HarnessOf(c);
    if harness.None? || c.issues == [] { return Err(BadArguments); }
    var a, s := LaneArgsOf(c, harness.value, nonce), SourceOf(c, id);
    if id !in before.tasks && FreshPane(before, c, nonce) { CallSucceeds(before, c, harness.value, id, nonce, now); }
    r := ledger.RecordDispatch(a, s, c.worktree, c.landed, fail, now);
    if r.Ok? { CallWrites(before, c, harness.value, id, nonce, now); }
  }

  /** What the command does about an error: the lane is held, with a note that says why. */
  method HoldLane(ledger: Ledger, lane: string, id: string, words: string, later: nat)
    requires ledger.Valid()
    modifies ledger
    ensures ledger.Valid() && ledger.Now() == MarkLaneHeld(old(ledger.Now()), lane, HoldNote(id, words), later)
    ensures forall other | other in old(ledger.tasks) :: other in ledger.tasks && ledger.tasks[other] == old(ledger.tasks)[other]
    ensures lane in old(ledger.lanes) && Occupant(old(ledger.Now()), lane).None? && HoldId(lane, later) !in old(ledger.tasks) ==>
      && HoldId(lane, later) in ledger.tasks
      && ledger.tasks[HoldId(lane, later)].summary == "ledger record failed: record_dispatch failed for task " + id + ": " + words
    ensures LaneAvailable(ledger.Now(), lane) == Some(true) <==>
      lane in old(ledger.lanes) && Occupant(old(ledger.Now()), lane).None? && HoldId(lane, later) in old(ledger.tasks)
  {
    HeldLaneReadsFreeIff(ledger.Now(), lane, HoldNote(id, words), later);
    NoteSpelled(id, words);
    var held := ledger.MarkLaneHeld(lane, HoldNote(id, words), later);
  }

  /**
   What is recorded is the pull the call names, or else its first issue; a pull another lane's open task works
   on is never recorded a second time. Whatever goes wrong, no finished attempt's row is touched; and after a failure the lane reads free
   exactly when nothing held it before and a hold of that same second is already spent.
   */
  method RecordDispatch(ledger: Ledger, c: Call, nonce: string, fail: DispatchFailpoint, now: nat, later: nat, describe: Error -> string)
    returns (r: Outcome<TaskRow>, id: string)
    requires ledger.Valid()
    modifies ledger
    ensures ledger.Valid()
    ensures c.task in old(ledger.tasks) && Terminal(old(ledger.tasks)[c.task].status) ==>
      id !in old(ledger.tasks) && c.task in ledger.tasks && ledger.tasks[c.task] == old(ledger.tasks)[c.task]
    ensures r.Ok? ==> SoleOpen(ledger.Now(), c.lane, id) && ledger.tasks[id] == r.value && r.value.status.Delivered?
    ensures r.Ok? ==> id in ledger.sources && SourceOfCall(ledger.sources[id], c) && c.lane in ledger.lanes && LaneOfCall(ledger.lanes[c.lane], c, nonce)
    ensures r.Ok? && id !in old(ledger.tasks) ==> TaskOfCall(r.value, c, nonce, now)
    ensures HeldElsewhere(old(ledger.Now()), c, id) ==> r.Err?
    ensures id !in old(ledger.tasks) && FreshPane(old(ledger.Now()), c, nonce) && fail.NoDispatchFailpoint? ==>
      (r.Ok? <==> WillRecord(old(ledger.Now()), c, id, nonce))
    ensures r.Err? ==> ledger.Now() == MarkLaneHeld(old(ledger.Now()), c.lane, HoldNote(id, describe(r.error)), later)
    ensures r.Err? && c.lane in old(ledger.lanes) && Occupant(old(ledger.Now()), c.lane).None? && HoldId(c.lane, later) !in old(ledger.tasks) ==>
      && HoldId(c.lane, later) in ledger.tasks
      && ledger.tasks[HoldId(c.lane, later)].summary == "ledger record failed: record_dispatch failed for task " + id + ": " + describe(r.error)
    ensures r.Err? ==>
      (LaneAvailable(ledger.Now(), c.lane) == Some(true) <==>
        c.lane in old(ledger.lanes) && Occupant(old(ledger.Now()), c.lane).None? && HoldId(c.lane, later) in old(ledger.tasks))
  {
    var tries;
    id, tries := UniqueRedispatchTaskId(ledger.tasks, c.task);
    r := Attempt(ledger, c, id, nonce, fail, now);
    if r.Err? { HoldLane(ledger, c.lane, id, describe(r.error), later); }
  }
}
