/**
 Task state kept in a GitHub issue: one task marker in its body, and status markers in its comments, the
 newest of which is the task's status. What the `gh` calls return is a parameter, checked as the source checks it.
 */
module GithubSource {
  import opened Prelude
  import opened Json
  import opened Markers
  import Lex
  import Ids

  /* ---- what names a task ---- */

  /** The parts of a canonical issue or pull request URL. */
  datatype Source = Source(owner: string, repo: string, pull: bool, number: string, ref: string)

  predicate UrlChar(c: char) { 'a' <= c <= 'z' || 'A' <= c <= 'Z' || '0' <= c <= '9' || c == '.' || c == '_' || c == '-' }

  predicate HexChar(c: char) { '0' <= c <= '9' || 'a' <= c <= 'f' }

  /** What the URL and commit patterns leave in each part. */
  predicate ValidSource(src: Source) {
    && (forall c | c in src.owner + src.repo + src.number :: UrlChar(c)) && (forall c | c in src.ref :: HexChar(c))
    && 0 < |src.owner| <= 39 && src.repo != "" && src.number != "" && 40 <= |src.ref| <= 64
  }

  function UrlOf(src: Source): string {
    "https://github.com/" + src.owner + "/" + src.repo + (if src.pull then "/pull/" else "/issues/") + src.number
  }

  /** `_task_id`. */
  function TaskIdOf(src: Source): string {
    "gh." + src.owner + "." + src.repo + (if src.pull then ".pull." else ".issue.") + src.number
  }

  lemma NamesAreClean(src: Source)
    requires ValidSource(src)
    ensures Clean(UrlOf(src)) && Clean(src.ref) && Clean(TaskIdOf(src))
  {
    forall c | c in src.owner || c in src.repo || c in src.number ensures c != '}' {
      assert c in src.owner + src.repo + src.number;
    }
    assert '}' !in UrlOf(src) && '}' !in TaskIdOf(src) && '}' !in src.ref;
    BracelessIsClean(UrlOf(src));
    BracelessIsClean(src.ref);
    BracelessIsClean(TaskIdOf(src));
  }

  lemma BracelessIsClean(s: string)
    requires '}' !in s
    ensures Clean(s)
  {
    assert forall k | 0 <= k < |s| :: s[k] in s;
  }

  /* ---- markers as fields ---- */

  /** `value.get(key)`: of repeated keys the last one counts. */
  function Get(fields: Members, key: string): Option<Json> {
    match fields
    case NoMembers => None
    case Member(k, v, rest) =>
      var later := Get(rest, key);
      if later.Some? then later else if k == key then Some(v) else None
  }

  function Texts(items: Items): Option<seq<string>> {
    match items
    case NoItems => Some([])
    case Item(Str(s), tail) => (match Texts(tail) case None => None case Some(more) => if s == "" then None else Some([s] + more))
    case _ => None
  }

  function ItemsOf(texts: seq<string>): Items {
    if texts == [] then NoItems else Item(Str(texts[0]), ItemsOf(texts[1..]))
  }

  lemma {:induction false} TextsRoundTrip(texts: seq<string>)
    requires forall t | t in texts :: t != ""
    ensures Texts(ItemsOf(texts)) == Some(texts)
    ensures ItemsClean(ItemsOf(texts)) <==> forall t | t in texts :: Clean(t)
  {
    if texts != [] {
      assert texts == [texts[0]] + texts[1..];
      assert forall t | t in texts[1..] :: t in texts;
      assert texts[0] in texts;
      TextsRoundTrip(texts[1..]);
    }
  }

  const STATUSES := ["created", "delivered", "accepted", "running", "complete", "failed", "cancelled"]

  const TERMINAL := ["complete", "failed", "cancelled"]

  predicate Bound(src: Source, fields: Members) {
    && Get(fields, "source_url") == Some(Str(UrlOf(src))) && Get(fields, "source_ref") == Some(Str(src.ref))
    && Get(fields, "task_id") == Some(Str(TaskIdOf(src)))
  }

  datatype LoadError = WrongUrl | WrongNumber | WrongHead | WrongRef | BadMarker(e: MarkerError) | NotOneDeclaration | WrongBinding | NoTimestamp | BadStatus | BadEvidence | NoEvidence

  datatype Receipt = Receipt(at: string, raw: string, status: string, evidence: seq<string>)

  predicate IsKind(fields: Members, kind: string) { Get(fields, "kind") == Some(Str(kind)) }

  /** One status marker, checked. */
  function ReceiptOf(src: Source, at: string, found: Parsed): Result<Receipt, LoadError> {
    var fields := found.1;
    if !Bound(src, fields) then Err(WrongBinding)
    else match Get(fields, "status")
      case Some(Str(status)) =>
        if status !in STATUSES then Err(BadStatus)
        else (match Get(fields, "evidence")
          case Some(Arr(items)) =>
            (match Texts(items)
             case None => Err(BadEvidence)
             case Some(evidence) => if status in TERMINAL && evidence == [] then Err(NoEvidence) else Ok(Receipt(at, found.0, status, evidence)))
          case _ => Err(BadEvidence))
      case _ => Err(BadStatus)
  }

  function ReceiptsIn(src: Source, at: string, found: seq<Parsed>): Result<seq<Receipt>, LoadError> {
    if found == [] then Ok([])
    else
      match ReceiptsIn(src, at, found[..|found| - 1])
      case Err(e) => Err(e)
      case Ok(before) =>
        var last := found[|found| - 1];
        if !IsKind(last.1, "status") then Ok(before)
        else match ReceiptOf(src, at, last)
          case Err(e) => Err(e)
          case Ok(receipt) => Ok(before + [receipt])
  }

  /** A field that is not text reads as None; text that is absent holds no marker. */
  datatype Comment = Comment(createdAt: Option<string>, body: Option<string>)

  function MarkersIn(text: Option<string>): Result<seq<Parsed>, MarkerError> { if text.None? then Ok([]) else MarkersOf(text.value) }

  function ReceiptsOfComment(src: Source, c: Comment): Result<seq<Receipt>, LoadError> {
    if c.createdAt.None? then Err(NoTimestamp)
    else match MarkersIn(c.body)
      case Err(e) => Err(BadMarker(e))
      case Ok(found) => ReceiptsIn(src, c.createdAt.value, found)
  }

  function Receipts(src: Source, comments: seq<Comment>): Result<seq<Receipt>, LoadError> {
    if comments == [] then Ok([])
    else
      match Receipts(src, comments[..|comments| - 1])
      case Err(e) => Err(e)
      case Ok(before) =>
        match ReceiptsOfComment(src, comments[|comments| - 1])
        case Err(e) => Err(e)
        case Ok(here) => Ok(before + here)
  }

  /* ---- the newest receipt ---- */

  /** A stable sort by time: a receipt goes after every one that is not later. */
  function InsertByTime(sorted: seq<Receipt>, r: Receipt): seq<Receipt> {
    if sorted == [] || !Lex.Less(r.at, sorted[|sorted| - 1].at) then sorted + [r]
    else InsertByTime(sorted[..|sorted| - 1], r) + [sorted[|sorted| - 1]]
  }

  function SortByTime(receipts: seq<Receipt>): seq<Receipt> {
    if receipts == [] then [] else InsertByTime(SortByTime(receipts[..|receipts| - 1]), receipts[|receipts| - 1])
  }

  /** What the sort leaves last: no receipt is newer, and of equally new ones it came last. */
  predicate Newest(receipts: seq<Receipt>, i: nat) {
    i < |receipts| && forall j | 0 <= j < |receipts| ::
      if i < j then Lex.Less(receipts[j].at, receipts[i].at) else !Lex.Less(receipts[i].at, receipts[j].at)
  }

  lemma InsertLeavesLast(sorted: seq<Receipt>, r: Receipt)
    ensures var s := InsertByTime(sorted, r);
      s != [] && s[|s| - 1] == if sorted == [] || !Lex.Less(r.at, sorted[|sorted| - 1].at) then r else sorted[|sorted| - 1]
  {
  }

  /** One more receipt is the newest, or the newest stays. */
  lemma NewestOfMore(before: seq<Receipt>, b: nat, r: Receipt)
    requires Newest(before, b)
    ensures Newest(before + [r], if Lex.Less(r.at, before[b].at) then b else |before|)
  {
    var more := before + [r];
    assert more[|before|] == r && forall j | 0 <= j < |before| :: more[j] == before[j];
    Lex.Total(r.at, r.at);
    if !Lex.Less(r.at, before[b].at) {
      forall j | 0 <= j < |before| ensures !Lex.Less(r.at, before[j].at) {
        Lex.Total(before[b].at, before[j].at);
        if Lex.Less(r.at, before[j].at) { LaterThanNewest(r.at, before[j].at, before[b].at); }
      }
    }
  }

  lemma {:induction false} SortPicksNewest(receipts: seq<Receipt>) returns (i: nat)
    requires receipts != []
    ensures Newest(receipts, i) && SortByTime(receipts) != [] && SortByTime(receipts)[|SortByTime(receipts)| - 1] == receipts[i]
  {
    var n := |receipts| - 1;
    var before, last := receipts[..n], receipts[n];
    assert receipts == before + [last];
    InsertLeavesLast(SortByTime(before), last);
    if before == [] {
      Lex.Total(last.at, last.at);
      i := 0;
    } else {
      var b := SortPicksNewest(before);
      NewestOfMore(before, b, last);
      i := if Lex.Less(last.at, before[b].at) then b else n;
    }
  }

  lemma LaterThanNewest(last: string, at: string, newest: string)
    requires Lex.Less(last, at) && !Lex.Less(last, newest)
    ensures Lex.Less(newest, at)
  {
  }

  /* ---- loading ---- */

  datatype Issue = Issue(title: string, state: string, body: Option<string>, comments: seq<Comment>)

  datatype Record = Record(summary: string, state: string, status: string, evidence: seq<string>, marker: Option<string>)

  /** What `gh` answered: the view of the issue, its number as text, and the commit the ref resolved to. */
  datatype Fetched = Fetched(url: Option<string>, number: string, head: Option<string>, resolved: string, issue: Issue)

  /** The checks on the answer, in the order they are made. */
  function Mismatch(src: Source, f: Fetched): Option<LoadError> {
    if f.url != Some(UrlOf(src)) then Some(WrongUrl)
    else if f.number != src.number then Some(WrongNumber)
    else if src.pull && f.head != Some(src.ref) then Some(WrongHead)
    else if f.resolved != src.ref then Some(WrongRef)
    else None
  }

  function Declarations(found: seq<Parsed>): seq<Parsed> {
    if found == [] then []
    else Declarations(found[..|found| - 1]) + if IsKind(found[|found| - 1].1, "task") then [found[|found| - 1]] else []
  }

  function Declared(src: Source, issue: Issue): Result<(), LoadError> {
    match MarkersIn(issue.body)
    case Err(e) => Err(BadMarker(e))
    case Ok(found) =>
      var declarations := Declarations(found);
      if |declarations| != 1 then Err(NotOneDeclaration) else if !Bound(src, declarations[0].1) then Err(WrongBinding) else Ok(())
  }

  function RecordOf(issue: Issue, sorted: seq<Receipt>): Record {
    if sorted == [] then Record(issue.title, issue.state, "created", [], None)
    else
      var last := sorted[|sorted| - 1];
      Record(issue.title, issue.state, last.status, last.evidence, Some(last.raw))
  }

  function RecordFrom(src: Source, issue: Issue): Result<Record, LoadError> {
    match Declared(src, issue)
    case Err(e) => Err(e)
    case Ok(_) =>
      match Receipts(src, issue.comments)
      case Err(e) => Err(e)
      case Ok(receipts) => Ok(RecordOf(issue, SortByTime(receipts)))
  }

  function LoadOf(src: Source, f: Fetched): Result<Record, LoadError> {
    if Mismatch(src, f).Some? then Err(Mismatch(src, f).value) else RecordFrom(src, f.issue)
  }

  /** The inner loop of `load`: the status markers of one comment. */
  method CollectReceipts(src: Source, at: string, found: seq<Parsed>) returns (r: Result<seq<Receipt>, LoadError>)
    ensures r == ReceiptsIn(src, at, found)
  {
    var receipts := [];
    for k := 0 to |found|
      invariant ReceiptsIn(src, at, found[..k]) == Ok(receipts)
    {
      assert found[..k + 1][..k] == found[..k];
      if IsKind(found[k].1, "status") {
        var receipt := ReceiptOf(src, at, found[k]);
        if receipt.Err? {
          ReceiptsStop(src, at, found, k + 1);
          return Err(receipt.error);
        }
        receipts := receipts + [receipt.value];
      }
    }
    assert found[..|found|] == found;
    return Ok(receipts);
  }

  lemma {:induction false} ReceiptsStop(src: Source, at: string, found: seq<Parsed>, k: nat)
    requires k <= |found| && ReceiptsIn(src, at, found[..k]).Err?
    ensures ReceiptsIn(src, at, found) == ReceiptsIn(src, at, found[..k])
  {
    if k < |found| {
      var front := found[..|found| - 1];
      assert front[..k] == found[..k];
      ReceiptsStop(src, at, front, k);
    } else {
      assert found[..k] == found;
    }
  }

  lemma {:induction false} CommentsStop(src: Source, comments: seq<Comment>, k: nat)
    requires k <= |comments| && Receipts(src, comments[..k]).Err?
    ensures Receipts(src, comments) == Receipts(src, comments[..k])
  {
    if k < |comments| {
      var front := comments[..|comments| - 1];
      assert front[..k] == comments[..k];
      CommentsStop(src, front, k);
    } else {
      assert comments[..k] == comments;
    }
  }

  method LoadComment(src: Source, c: Comment) returns (r: Result<seq<Receipt>, LoadError>)
    ensures r == ReceiptsOfComment(src, c)
  {
    if c.createdAt.None? { return Err(NoTimestamp); }
    if c.body.None? {
      r := CollectReceipts(src, c.createdAt.value, []);
    } else {
      var found := ReadMarkers(c.body.value);
      if found.Err? { return Err(BadMarker(found.error)); }
      r := CollectReceipts(src, c.createdAt.value, found.value);
    }
  }

  method CheckDeclaration(src: Source, issue: Issue) returns (r: Result<(), LoadError>)
    ensures r == Declared(src, issue)
  {
    var found: seq<Parsed> := [];
    if issue.body.Some? {
      var read := ReadMarkers(issue.body.value);
      if read.Err? { return Err(BadMarker(read.error)); }
      found := read.value;
    }
    var declarations: seq<Parsed> := [];
    for k := 0 to |found|
      invariant declarations == Declarations(found[..k])
    {
      assert found[..k + 1][..k] == found[..k];
      if IsKind(found[k].1, "task") { declarations := declarations + [found[k]]; }
    }
    assert found[..|found|] == found;
    if |declarations| != 1 { return Err(NotOneDeclaration); }
    if !Bound(src, declarations[0].1) { return Err(WrongBinding); }
    return Ok(());
  }

  /** `load`: of the issue asked for at the commit asked for, or of nothing. */
  method Load(src: Source, f: Fetched) returns (r: Result<Record, LoadError>)
    ensures r == LoadOf(src, f)
    ensures r.Ok? ==> f.url == Some(UrlOf(src)) && f.number == src.number && f.resolved == src.ref && (src.pull ==> f.head == Some(src.ref))
  {
    if f.url != Some(UrlOf(src)) { return Err(WrongUrl); }
    if f.number != src.number { return Err(WrongNumber); }
    if src.pull && f.head != Some(src.ref) { return Err(WrongHead); }
    if f.resolved != src.ref { return Err(WrongRef); }
    var issue := f.issue;
    var declared := CheckDeclaration(src, issue);
    if declared.Err? { return Err(declared.error); }
    var receipts := [];
    for k := 0 to |issue.comments|
      invariant Receipts(src, issue.comments[..k]) == Ok(receipts)
    {
      assert issue.comments[..k + 1][..k] == issue.comments[..k];
      var here := LoadComment(src, issue.comments[k]);
      if here.Err? {
        CommentsStop(src, issue.comments, k + 1);
        return Err(here.error);
      }
      receipts := receipts + here.value;
    }
    assert issue.comments[..|issue.comments|] == issue.comments;
    return Ok(RecordOf(issue, SortByTime(receipts)));
  }

  /* ---- publishing ---- */

  predicate Publishable(status: string, evidence: seq<string>) {
    status in STATUSES && (forall e | e in evidence :: e != "") && (status in TERMINAL ==> evidence != [])
  }

  function StatusFields(src: Source, status: string, evidence: seq<string>): Members {
    Member("evidence", Arr(ItemsOf(evidence)), Member("kind", Str("status"), Member("source_ref", Str(src.ref),
      Member("source_url", Str(UrlOf(src)), Member("status", Str(status), Member("task_id", Str(TaskIdOf(src)), NoMembers))))))
  }

  /** `publish_status`: refused like any load, and otherwise the comment it posts. */
  function Published(src: Source, f: Fetched, status: string, evidence: seq<string>): Option<string> {
    if Publishable(status, evidence) && LoadOf(src, f).Ok? then Some(Marker(StatusFields(src, status, evidence))) else None
  }

  lemma LastWins(k: string, v: Json, rest: Members, key: string)
    ensures Get(Member(k, v, rest), key) == if Get(rest, key).Some? then Get(rest, key) else if k == key then Some(v) else None
  {
  }

  lemma GetStatusField(src: Source, status: string, evidence: seq<string>, key: string)
    ensures Get(StatusFields(src, status, evidence), key) ==
      if key == "task_id" then Some(Str(TaskIdOf(src)))
      else if key == "status" then Some(Str(status))
      else if key == "source_url" then Some(Str(UrlOf(src)))
      else if key == "source_ref" then Some(Str(src.ref))
      else if key == "kind" then Some(Str("status"))
      else if key == "evidence" then Some(Arr(ItemsOf(evidence)))
      else None
  {
    var f5 := Member("task_id", Str(TaskIdOf(src)), NoMembers);
    var f4 := Member("status", Str(status), f5);
    var f3 := Member("source_url", Str(UrlOf(src)), f4);
    var f2 := Member("source_ref", Str(src.ref), f3);
    var f1 := Member("kind", Str("status"), f2);
    LastWins("task_id", Str(TaskIdOf(src)), NoMembers, key);
    LastWins("status", Str(status), f5, key);
    LastWins("source_url", Str(UrlOf(src)), f4, key);
    LastWins("source_ref", Str(src.ref), f3, key);
    LastWins("kind", Str("status"), f2, key);
    LastWins("evidence", Arr(ItemsOf(evidence)), f1, key);
  }

  lemma FieldsReadBack(src: Source, status: string, evidence: seq<string>)
    ensures var f := StatusFields(src, status, evidence);
      && Get(f, "evidence") == Some(Arr(ItemsOf(evidence))) && IsKind(f, "status") && Get(f, "status") == Some(Str(status)) && Bound(src, f)
  {
    GetStatusField(src, status, evidence, "evidence");
    GetStatusField(src, status, evidence, "kind");
    GetStatusField(src, status, evidence, "status");
    GetStatusField(src, status, evidence, "source_ref");
    GetStatusField(src, status, evidence, "source_url");
    GetStatusField(src, status, evidence, "task_id");
    assert "source_ref"[7] == 'r' && "source_url"[7] == 'u';
  }

  lemma OneMemberClean(k: string, v: Json, rest: Members)
    requires Clean(k)
    ensures MembersClean(Member(k, v, rest)) <==> AllClean(v) && MembersClean(rest)
  {
  }

  lemma StatusMarkerClean(src: Source, status: string, evidence: seq<string>)
    requires ValidSource(src) && Publishable(status, evidence)
    ensures Clean(Print(Obj(StatusFields(src, status, evidence)))) <==> forall e | e in evidence :: Clean(e)
  {
    PrintClean(Obj(StatusFields(src, status, evidence)));
    NamesAreClean(src);
    TextsRoundTrip(evidence);
    KeysAreClean(status);
    var f5 := Member("task_id", Str(TaskIdOf(src)), NoMembers);
    var f4 := Member("status", Str(status), f5);
    var f3 := Member("source_url", Str(UrlOf(src)), f4);
    var f2 := Member("source_ref", Str(src.ref), f3);
    OneMemberClean("task_id", Str(TaskIdOf(src)), NoMembers);
    OneMemberClean("status", Str(status), f5);
    OneMemberClean("source_url", Str(UrlOf(src)), f4);
    OneMemberClean("source_ref", Str(src.ref), f3);
    OneMemberClean("kind", Str("status"), f2);
    OneMemberClean("evidence", Arr(ItemsOf(evidence)), Member("kind", Str("status"), f2));
    assert AllClean(Str("status"));
  }

  lemma KeysAreClean(status: string)
    requires status in STATUSES
    ensures Clean("evidence") && Clean("kind") && Clean("status") && Clean("source_ref") && Clean("source_url") && Clean("task_id") && Clean(status)
  {
  }

  /** A receipt not older than any before it sorts last, behind them as they were. */
  lemma LatestSortsLast(before: seq<Receipt>, r: Receipt)
    requires forall b | b in before :: !Lex.Less(r.at, b.at)
    ensures SortByTime(before + [r]) == SortByTime(before) + [r]
  {
    assert (before + [r])[..|before|] == before;
    if before != [] {
      var i := SortPicksNewest(before);
      assert before[i] in before;
    }
  }

  lemma OneMoreComment(src: Source, comments: seq<Comment>, c: Comment)
    requires Receipts(src, comments).Ok? && ReceiptsOfComment(src, c).Ok?
    ensures Receipts(src, comments + [c]) == Ok(Receipts(src, comments).value + ReceiptsOfComment(src, c).value)
  {
    assert (comments + [c])[..|comments|] == comments;
  }

  /** One more comment, at least as late as the rest, decides. */
  lemma LatestCommentDecides(src: Source, issue: Issue, at: string, body: string, receipt: Receipt)
    requires RecordFrom(src, issue).Ok? && receipt.at == at && ReceiptsOfComment(src, Comment(Some(at), Some(body))) == Ok([receipt])
    requires forall r | r in Receipts(src, issue.comments).value :: !Lex.Less(at, r.at)
    ensures RecordFrom(src, WithComment(issue, at, body)) ==
      Ok(RecordFrom(src, issue).value.(status := receipt.status, evidence := receipt.evidence, marker := Some(receipt.raw)))
  {
    OneMoreComment(src, issue.comments, Comment(Some(at), Some(body)));
    LatestSortsLast(Receipts(src, issue.comments).value, receipt);
  }

  lemma StatusReceipt(src: Source, at: string, status: string, evidence: seq<string>, raw: string)
    requires Publishable(status, evidence)
    ensures ReceiptsIn(src, at, [(raw, StatusFields(src, status, evidence))]) == Ok([Receipt(at, raw, status, evidence)])
  {
    var found := (raw, StatusFields(src, status, evidence));
    FieldsReadBack(src, status, evidence);
    TextsRoundTrip(evidence);
    assert ReceiptOf(src, at, found) == Ok(Receipt(at, raw, status, evidence));
    var one, none: seq<Receipt> := [found], [];
    assert one[..|one| - 1] == [] && one[|one| - 1] == found;
    assert ReceiptsIn(src, at, one[..|one| - 1]) == Ok(none);
    assert none + [Receipt(at, raw, status, evidence)] == [Receipt(at, raw, status, evidence)];
  }

  function WithComment(issue: Issue, at: string, body: string): Issue {
    issue.(comments := issue.comments + [Comment(Some(at), Some(body))])
  }

  lemma CleanStatusLoads(src: Source, issue: Issue, status: string, evidence: seq<string>, at: string)
    requires ValidSource(src) && Publishable(status, evidence) && RecordFrom(src, issue).Ok? && (forall e | e in evidence :: Clean(e))
    requires forall r | r in Receipts(src, issue.comments).value :: !Lex.Less(at, r.at)
    ensures var receipt := Marker(StatusFields(src, status, evidence));
      RecordFrom(src, WithComment(issue, at, receipt)) == Ok(RecordFrom(src, issue).value.(status := status, evidence := evidence, marker := Some(receipt)))
  {
    var fields := StatusFields(src, status, evidence);
    var receipt := Marker(fields);
    StatusMarkerClean(src, status, evidence);
    MarkerRoundTrip(fields);
    StatusReceipt(src, at, status, evidence, receipt);
    LatestCommentDecides(src, issue, at, receipt, Receipt(at, receipt, status, evidence));
  }

  lemma UnreadableComment(src: Source, comments: seq<Comment>, c: Comment)
    requires Receipts(src, comments).Ok? && ReceiptsOfComment(src, c).Err?
    ensures Receipts(src, comments + [c]) == Err(ReceiptsOfComment(src, c).error)
  {
    assert (comments + [c])[..|comments|] == comments;
  }

  lemma UncleanStatusFails(src: Source, issue: Issue, status: string, evidence: seq<string>, at: string)
    requires ValidSource(src) && Publishable(status, evidence) && RecordFrom(src, issue).Ok? && exists e | e in evidence :: !Clean(e)
    ensures RecordFrom(src, WithComment(issue, at, Marker(StatusFields(src, status, evidence)))) == Err(BadMarker(InvalidJson))
  {
    StatusMarkerClean(src, status, evidence);
    MarkerRoundTrip(StatusFields(src, status, evidence));
    UnreadableComment(src, issue.comments, Comment(Some(at), Some(Marker(StatusFields(src, status, evidence)))));
  }

  /**
   What is published is what is loaded next, as long as its comment is not older than the rest, exactly
   when no piece of evidence spells `} -->`; one that does makes every later load fail.
   */
  lemma PublishThenLoad(src: Source, f: Fetched, status: string, evidence: seq<string>, at: string)
    requires ValidSource(src) && Published(src, f, status, evidence).Some?
    requires forall r | r in Receipts(src, f.issue.comments).value :: !Lex.Less(at, r.at)
    ensures var receipt := Published(src, f, status, evidence).value;
      LoadOf(src, f.(issue := WithComment(f.issue, at, receipt))) ==
        if forall e | e in evidence :: Clean(e)
        then Ok(LoadOf(src, f).value.(status := status, evidence := evidence, marker := Some(receipt)))
        else Err(BadMarker(InvalidJson))
  {
    if forall e | e in evidence :: Clean(e) { CleanStatusLoads(src, f.issue, status, evidence, at); }
    else { UncleanStatusFails(src, f.issue, status, evidence, at); }
  }

  /* ---- a task that can be loaded, and a status that stops it ---- */

  function TaskFields(src: Source): Members {
    Member("kind", Str("task"), Member("source_ref", Str(src.ref), Member("source_url", Str(UrlOf(src)),
      Member("task_id", Str(TaskIdOf(src)), NoMembers))))
  }

  lemma GetTaskField(src: Source, key: string)
    ensures Get(TaskFields(src), key) ==
      if key == "task_id" then Some(Str(TaskIdOf(src)))
      else if key == "source_url" then Some(Str(UrlOf(src)))
      else if key == "source_ref" then Some(Str(src.ref))
      else if key == "kind" then Some(Str("task"))
      else None
  {
    var f3 := Member("task_id", Str(TaskIdOf(src)), NoMembers);
    var f2 := Member("source_url", Str(UrlOf(src)), f3);
    var f1 := Member("source_ref", Str(src.ref), f2);
    LastWins("task_id", Str(TaskIdOf(src)), NoMembers, key);
    LastWins("source_url", Str(UrlOf(src)), f3, key);
    LastWins("source_ref", Str(src.ref), f2, key);
    LastWins("kind", Str("task"), f1, key);
  }

  lemma TaskMarkerClean(src: Source)
    requires ValidSource(src)
    ensures Clean(Print(Obj(TaskFields(src))))
  {
    PrintClean(Obj(TaskFields(src)));
    NamesAreClean(src);
    KeysAreClean("created");
    BracelessIsClean("task");
    var f3 := Member("task_id", Str(TaskIdOf(src)), NoMembers);
    var f2 := Member("source_url", Str(UrlOf(src)), f3);
    OneMemberClean("task_id", Str(TaskIdOf(src)), NoMembers);
    OneMemberClean("source_url", Str(UrlOf(src)), f3);
    OneMemberClean("source_ref", Str(src.ref), f2);
    OneMemberClean("kind", Str("task"), Member("source_ref", Str(src.ref), f2));
  }

  /** An issue whose body is the printed task marker, without comments, as `gh` answers for it. */
  function Declares(src: Source, title: string, state: string): Fetched {
    Fetched(Some(UrlOf(src)), src.number, Some(src.ref), src.ref, Issue(title, state, Some(Marker(TaskFields(src))), []))
  }

  lemma TaskFieldsBind(src: Source)
    ensures IsKind(TaskFields(src), "task") && Bound(src, TaskFields(src))
  {
    GetTaskField(src, "kind");
    GetTaskField(src, "task_id");
    GetTaskField(src, "source_url");
    GetTaskField(src, "source_ref");
    assert "source_ref"[7] == 'r' && "source_url"[7] == 'u';
  }

  lemma OneDeclaration(one: Parsed)
    requires IsKind(one.1, "task")
    ensures Declarations([one]) == [one]
  {
    assert [one][..0] == [] && Declarations([]) == [];
  }

  /** The other round trip: a task declared by its marker alone loads as created. */
  lemma DeclaredTaskLoads(src: Source, title: string, state: string)
    requires ValidSource(src)
    ensures LoadOf(src, Declares(src, title, state)) == Ok(Record(title, state, "created", [], None))
  {
    var fields := TaskFields(src);
    TaskMarkerClean(src);
    MarkerRoundTrip(fields);
    TaskFieldsBind(src);
    OneDeclaration((Marker(fields), fields));
  }

  lemma RunningCanBePublished()
    ensures Publishable("running", ["} -->"]) && !Clean("} -->")
  {
    assert STATUSES[3] == "running" && |"running"| == 7;
    assert ClosesAt("} -->", 0);
  }

  /** A comment that cannot be read is in the way of everything written after it. */
  lemma StopsForGood(src: Source, issue: Issue, more: seq<Comment>)
    requires Receipts(src, issue.comments).Err?
    ensures RecordFrom(src, issue.(comments := issue.comments + more)) == RecordFrom(src, issue)
  {
    assert (issue.comments + more)[..|issue.comments|] == issue.comments;
    CommentsStop(src, issue.comments + more, |issue.comments|);
  }

  /** Of any task: once a status is published with this one piece of evidence it never loads again, whatever is added. */
  lemma ClosingTextStopsLoading(src: Source, title: string, state: string, at: string, more: seq<Comment>)
    requires ValidSource(src)
    ensures var f, evidence := Declares(src, title, state), ["} -->"];
      && Published(src, f, "running", evidence).Some?
      && var stuck := WithComment(f.issue, at, Published(src, f, "running", evidence).value);
      && LoadOf(src, f.(issue := stuck.(comments := stuck.comments + more))) == Err(BadMarker(InvalidJson))
  {
    var f, evidence := Declares(src, title, state), ["} -->"];
    DeclaredTaskLoads(src, title, state);
    RunningCanBePublished();
    assert evidence[0] in evidence;
    PublishThenLoad(src, f, "running", evidence, at);
    var stuck := WithComment(f.issue, at, Published(src, f, "running", evidence).value);
    assert Declared(src, stuck) == Declared(src, f.issue);
    StopsForGood(src, stuck, more);
  }

  /** There are such sources. */
  lemma SomeSource()
    ensures ValidSource(Source("o", "r", false, "1", seq(40, i => '0')))
  {
    var ref := seq(40, i => '0');
    assert forall c | c in ref :: c == '0';
    assert forall c | c in "o" + "r" + "1" :: c == 'o' || c == 'r' || c == '1';
  }

  /** Which statuses can be published, and which of them only with evidence. */
  lemma StatusesAre(status: string, evidence: seq<string>)
    ensures Publishable(status, evidence) <==>
      && (status == "created" || status == "delivered" || status == "accepted" || status == "running"
          || (evidence != [] && (status == "complete" || status == "failed" || status == "cancelled")))
      && forall e | e in evidence :: e != ""
  {
    assert STATUSES == ["created", "delivered", "accepted", "running"] + TERMINAL;
    assert status in STATUSES <==> status in ["created", "delivered", "accepted", "running"] || status in TERMINAL;
    assert "accepted"[0] == 'a' && "complete"[0] == 'c' && "delivered"[0] == 'd' && "cancelled"[0] == 'c' && "created"[1] == 'r' && "running"[0] == 'r';
  }

  /* ---- what a status marker must say ---- */

  lemma {:induction false} TextsAre(items: Items, texts: seq<string>)
    ensures Texts(items) == Some(texts) <==> items == ItemsOf(texts) && "" !in texts
  {
    match items
    case Item(Str(s), tail) =>
      if texts != [] {
        TextsAre(tail, texts[1..]);
        assert texts == [texts[0]] + texts[1..];
      }
      if Texts(items) == Some(texts) { assert texts[1..] == Texts(tail).value; }
    case _ =>
  }

  /** A status marker is read exactly when it names this task at this commit and says what could be published. */
  lemma ReceiptIs(src: Source, at: string, raw: string, fields: Members, r: Receipt)
    ensures ReceiptOf(src, at, (raw, fields)) == Ok(r) <==>
      && r.at == at && r.raw == raw && Publishable(r.status, r.evidence)
      && Get(fields, "source_url") == Some(Str(UrlOf(src))) && Get(fields, "source_ref") == Some(Str(src.ref)) && Get(fields, "task_id") == Some(Str(TaskIdOf(src)))
      && Get(fields, "status") == Some(Str(r.status)) && Get(fields, "evidence") == Some(Arr(ItemsOf(r.evidence)))
  {
    match Get(fields, "evidence")
    case Some(Arr(items)) =>
      TextsAre(items, r.evidence);
      if Texts(items).Some? { TextsAre(items, Texts(items).value); }
    case _ =>
  }

  /** What may stand in each part of a URL, and in a commit. */
  lemma SourcesAre(src: Source)
    ensures ValidSource(src) <==>
      && (forall c | c in src.owner + src.repo + src.number :: c in "._-" || Ids.AsciiAlnum(c as int))
      && (forall c | c in src.ref :: 48 <= c as int <= 57 || 97 <= c as int <= 102)
      && 0 < |src.owner| <= 39 && src.repo != "" && src.number != "" && 40 <= |src.ref| <= 64
  {
    assert forall c :: UrlChar(c) <==> c in "._-" || Ids.AsciiAlnum(c as int);
    assert forall c :: HexChar(c) <==> 48 <= c as int <= 57 || 97 <= c as int <= 102;
  }

  function Quote(s: string): string { "\"" + s + "\"" }

  /** One text field of a marker, and the last one. */
  lemma FieldPrints(k: string, v: string, rest: Members)
    requires Plain(k) && Plain(v)
    ensures PrintMembers(Member(k, Str(v), rest)) ==
      if rest.NoMembers? then Quote(k) + ":" + Quote(v) + "}" else Quote(k) + ":" + Quote(v) + "," + PrintMembers(rest)
  {
    PlainPrints(k);
    PlainPrints(v);
  }

  lemma PlainTogether(a: string, b: string)
    requires Plain(a) && Plain(b)
    ensures Plain(a + b)
  {
  }

  lemma NamesArePlain(src: Source)
    requires ValidSource(src)
    ensures Plain(src.ref) && Plain(UrlOf(src)) && Plain(TaskIdOf(src))
  {
    forall c | c in src.owner || c in src.repo || c in src.number ensures PlainChar(c) { assert c in src.owner + src.repo + src.number && UrlChar(c); }
    forall c | c in src.ref ensures PlainChar(c) { assert HexChar(c); }
    var kind, word := if src.pull then "/pull/" else "/issues/", if src.pull then ".pull." else ".issue.";
    PlainTogether("https://github.com/", src.owner);
    PlainTogether("https://github.com/" + src.owner, "/");
    PlainTogether("https://github.com/" + src.owner + "/", src.repo);
    PlainTogether("https://github.com/" + src.owner + "/" + src.repo, kind);
    PlainTogether("https://github.com/" + src.owner + "/" + src.repo + kind, src.number);
    PlainTogether("gh.", src.owner);
    PlainTogether("gh." + src.owner, ".");
    PlainTogether("gh." + src.owner + ".", src.repo);
    PlainTogether("gh." + src.owner + "." + src.repo, word);
    PlainTogether("gh." + src.owner + "." + src.repo + word, src.number);
  }

  lemma KeysArePlain()
    ensures Plain("kind") && Plain("source_ref") && Plain("source_url") && Plain("status") && Plain("task_id") && Plain("evidence")
  {
  }

  lemma OneMorePrints(k: string, v: Json, rest: Members)
    requires Plain(k) && rest.Member?
    ensures PrintMembers(Member(k, v, rest)) == Quote(k) + ":" + Print(v) + "," + PrintMembers(rest)
  {
    PlainPrints(k);
  }

  lemma FirstFieldPrints(k: string, v: Json, rest: Members)
    requires Plain(k) && rest.Member?
    ensures Marker(Member(k, v, rest)) == "<!-- agent-estate:v1 " + ("{" + (Quote(k) + ":" + Print(v) + "," + PrintMembers(rest))) + " -->"
  {
    OneMorePrints(k, v, rest);
    var fields := Member(k, v, rest);
    assert Print(Obj(fields)) == "{" + PrintMembers(fields);
  }

  /** Five text fields in a row. */
  lemma FivePrint(k: seq<string>, v: seq<string>)
    requires |k| == |v| == 5 && forall i | 0 <= i < 5 :: Plain(k[i]) && Plain(v[i])
    ensures PrintMembers(Member(k[0], Str(v[0]), Member(k[1], Str(v[1]), Member(k[2], Str(v[2]), Member(k[3], Str(v[3]), Member(k[4], Str(v[4]), NoMembers)))))) ==
      Quote(k[0]) + ":" + Quote(v[0]) + "," + (Quote(k[1]) + ":" + Quote(v[1]) + "," + (Quote(k[2]) + ":" + Quote(v[2]) + ","
        + (Quote(k[3]) + ":" + Quote(v[3]) + "," + (Quote(k[4]) + ":" + Quote(v[4]) + "}"))))
  {
    var last := Member(k[4], Str(v[4]), NoMembers);
    var fourth := Member(k[3], Str(v[3]), last);
    var third := Member(k[2], Str(v[2]), fourth);
    FieldPrints(k[4], v[4], NoMembers);
    FieldPrints(k[3], v[3], last);
    FieldPrints(k[2], v[2], fourth);
    FieldPrints(k[1], v[1], third);
    FieldPrints(k[0], v[0], Member(k[1], Str(v[1]), third));
  }

  /** The comment a status is published as, to the letter: the prefix, the fields by name in order, the closing text. */
  lemma PublishedText(src: Source, status: string, evidence: seq<string>)
    requires ValidSource(src) && Plain(status)
    ensures Marker(StatusFields(src, status, evidence)) ==
      "<!-- agent-estate:v1 " + ("{" + (Quote("evidence") + ":" + Print(Arr(ItemsOf(evidence))) + ","
        + (Quote("kind") + ":" + Quote("status") + "," + (Quote("source_ref") + ":" + Quote(src.ref) + "," + (Quote("source_url") + ":" + Quote(UrlOf(src)) + ","
          + (Quote("status") + ":" + Quote(status) + "," + (Quote("task_id") + ":" + Quote(TaskIdOf(src)) + "}"))))))) + " -->"
  {
    NamesArePlain(src);
    KeysArePlain();
    var k, v := ["kind", "source_ref", "source_url", "status", "task_id"], ["status", src.ref, UrlOf(src), status, TaskIdOf(src)];
    FivePrint(k, v);
    FirstFieldPrints("evidence", Arr(ItemsOf(evidence)), StatusFields(src, status, evidence).rest);
  }

  /* ---- an id names one issue or pull request ---- */

  predicate OwnerChar(c: char) { 'a' <= c <= 'z' || 'A' <= c <= 'Z' || '0' <= c <= '9' || c == '-' }

  /** What the URL pattern leaves in the owner and in the number. */
  predicate Canonical(src: Source) {
    && (forall c | c in src.owner :: OwnerChar(c)) && (forall c | c in src.number :: '0' <= c <= '9') && (forall c | c in src.repo :: UrlChar(c))
  }

  predicate SameTarget(a: Source, b: Source) { a.owner == b.owner && a.repo == b.repo && a.pull == b.pull && a.number == b.number }

  /** Text up to a character it does not hold is told apart from what follows. */
  lemma SplitsFirst(x: string, y: string, c: char, a: string, b: string)
    requires c !in x && c !in y && x + [c] + a == y + [c] + b
    ensures x == y && a == b
  {
    var s, t := x + [c] + a, y + [c] + b;
    assert s[|x|] == c && t[|y|] == c;
    assert forall k | 0 <= k < |x| :: s[k] == x[k] && x[k] in x;
    assert forall k | 0 <= k < |y| :: t[k] == y[k] && y[k] in y;
    assert s[..|x|] == x && t[..|y|] == y;
    assert s[|x| + 1..] == a && t[|y| + 1..] == b;
  }

  lemma SplitsLast(x: string, y: string, c: char, a: string, b: string)
    requires c !in a && c !in b && x + [c] + a == y + [c] + b
    ensures x == y && a == b
  {
    var s, t := x + [c] + a, y + [c] + b;
    assert s[|s| - |a| - 1] == c && t[|t| - |b| - 1] == c;
    assert forall k | |x| < k < |s| :: s[k] == a[k - |x| - 1] && a[k - |x| - 1] in a;
    assert forall k | |y| < k < |t| :: t[k] == b[k - |y| - 1] && b[k - |y| - 1] in b;
    assert s[..|x|] == x && t[..|y|] == y;
    assert s[|x| + 1..] == a && t[|y| + 1..] == b;
  }

  function KindWord(src: Source): string { if src.pull then "pull" else "issue" }

  lemma TaskIdParts(src: Source)
    ensures TaskIdOf(src)[..3] == "gh." && TaskIdOf(src)[3..] == src.owner + ['.'] + ((src.repo + ['.'] + KindWord(src)) + ['.'] + src.number)
  {
    assert TaskIdOf(src) == "gh." + (src.owner + ['.'] + ((src.repo + ['.'] + KindWord(src)) + ['.'] + src.number));
  }

  /** Owner, repository, kind and number can all be read off an id. */
  lemma TaskIdNamesOne(a: Source, b: Source)
    requires Canonical(a) && Canonical(b)
    ensures TaskIdOf(a) == TaskIdOf(b) <==> SameTarget(a, b)
  {
    if TaskIdOf(a) == TaskIdOf(b) {
      TaskIdParts(a);
      TaskIdParts(b);
      var ra, rb := a.repo + ['.'] + KindWord(a), b.repo + ['.'] + KindWord(b);
      SplitsFirst(a.owner, b.owner, '.', ra + ['.'] + a.number, rb + ['.'] + b.number);
      SplitsLast(ra, rb, '.', a.number, b.number);
      assert '.' !in "pull" && '.' !in "issue";
      SplitsLast(a.repo, b.repo, '.', KindWord(a), KindWord(b));
      assert |"pull"| != |"issue"|;
    }
  }

  lemma UrlParts(src: Source)
    ensures var base := "https://github.com/";
      |UrlOf(src)| >= |base| && UrlOf(src)[|base|..] == src.owner + ['/'] + (src.repo + ['/'] + ((if src.pull then "pull" else "issues") + ['/'] + src.number))
  {
    var base := "https://github.com/";
    assert UrlOf(src) == base + (src.owner + ['/'] + (src.repo + ['/'] + ((if src.pull then "pull" else "issues") + ['/'] + src.number)));
  }

  lemma UrlNamesOne(a: Source, b: Source)
    requires Canonical(a) && Canonical(b)
    ensures UrlOf(a) == UrlOf(b) <==> SameTarget(a, b)
  {
    if UrlOf(a) == UrlOf(b) {
      UrlParts(a);
      UrlParts(b);
      var ka, kb := if a.pull then "pull" else "issues", if b.pull then "pull" else "issues";
      SplitsFirst(a.owner, b.owner, '/', a.repo + ['/'] + (ka + ['/'] + a.number), b.repo + ['/'] + (kb + ['/'] + b.number));
      SplitsFirst(a.repo, b.repo, '/', ka + ['/'] + a.number, kb + ['/'] + b.number);
      assert '/' !in "pull" && '/' !in "issues";
      SplitsFirst(ka, kb, '/', a.number, b.number);
      assert |"pull"| != |"issues"|;
    }
  }

  /** A body that declares one task loads for exactly that issue or pull request, at exactly that commit. */
  lemma DeclarationBinds(src: Source, other: Source, title: string, state: string)
    requires ValidSource(other) && Canonical(src) && Canonical(other)
    ensures RecordFrom(src, Declares(other, title, state).issue).Ok? <==> SameTarget(src, other) && src.ref == other.ref
  {
    var fields := TaskFields(other);
    TaskMarkerClean(other);
    MarkerRoundTrip(fields);
    TaskFieldsBind(other);
    OneDeclaration((Marker(fields), fields));
    UrlNamesOne(src, other);
    TaskIdNamesOne(src, other);
  }

  /** A status published for another task, or at another commit, is never taken for this one: it stops the load. */
  lemma ForeignStatusStops(src: Source, other: Source, status: string, evidence: seq<string>, at: string, raw: string)
    requires Canonical(src) && Canonical(other) && Publishable(status, evidence)
    ensures ReceiptOf(src, at, (raw, StatusFields(other, status, evidence))).Ok? <==> SameTarget(src, other) && src.ref == other.ref
  {
    FieldsReadBack(other, status, evidence);
    GetStatusField(other, status, evidence, "source_url");
    GetStatusField(other, status, evidence, "source_ref");
    TextsRoundTrip(evidence);
    UrlNamesOne(src, other);
    TaskIdNamesOne(src, other);
  }
}
