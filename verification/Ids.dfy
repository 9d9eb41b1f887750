/**
 Task ids and the owner suffix of a claim.

 Three kinds of rows share the `tasks` table: ordinary tasks, whose ids match TASK_ID_RE and so hold
 no colon; claim placeholders `ledger-claim:<lane>:<token>`; and holds `ledger-hold:<lane>:<second>`.
 A lane id is itself spelled `<session>:<index>`, so an id names its lane only because the part after
 the last colon holds no colon.
 */
module Ids {
  import opened Prelude
  import Decimal

  const CLAIM_PREFIX := "ledger-claim:"
  const HOLD_PREFIX := "ledger-hold:"

  predicate ColonFree(s: string) { ':' !in s }

  predicate HasPrefix(p: string, s: string) { p <= s }

  function ClaimId(lane: string, token: string): string { CLAIM_PREFIX + lane + ":" + token }

  function HoldId(lane: string, now: nat): string { HOLD_PREFIX + lane + ":" + Decimal.Print(now) }

  predicate IsClaim(id: string) { HasPrefix(CLAIM_PREFIX, id) }

  predicate IsHold(id: string) { HasPrefix(HOLD_PREFIX, id) }

  predicate IdStart(c: char) { 'a' <= c <= 'z' || 'A' <= c <= 'Z' || '0' <= c <= '9' }

  predicate IdChar(c: char) { IdStart(c) || c == '.' || c == '_' || c == '-' }

  /** TASK_ID_RE, which `fullmatch` anchors at both ends. */
  predicate ValidTaskId(id: string) {
    0 < |id| <= 128 && IdStart(id[0]) && forall i | 0 < i < |id| :: IdChar(id[i])
  }

  /** A task id: a letter or digit, then at most 127 letters, digits, dots, underscores and hyphens. */
  lemma TaskIdsAre(id: string)
    ensures ValidTaskId(id) <==> 0 < |id| <= 128 && id[0] !in "._-" && forall c | c in id :: c in "._-" || AsciiAlnum(c as int)
  {
    assert forall i | 0 <= i < |id| :: id[i] in id;
    assert forall c :: IdChar(c) <==> c in "._-" || AsciiAlnum(c as int);
  }

  predicate AsciiAlnum(code: int) { 48 <= code <= 57 || 65 <= code <= 90 || 97 <= code <= 122 }

  lemma PrefixHasColon(id: string)
    ensures IsClaim(id) ==> !ColonFree(id) && !IsHold(id)
    ensures IsHold(id) ==> !ColonFree(id)
  {
    assert IsClaim(id) ==> id[12] == CLAIM_PREFIX[12] && id[7] == CLAIM_PREFIX[7];
    assert IsHold(id) ==> id[11] == HOLD_PREFIX[11] && id[7] == HOLD_PREFIX[7];
  }

  lemma ValidTaskIdColonFree(id: string)
    requires ValidTaskId(id)
    ensures ColonFree(id) && !IsClaim(id) && !IsHold(id)
  {
    PrefixHasColon(id);
    assert forall i | 0 <= i < |id| :: id[i] != ':';
  }

  /** Whether `id` spells `prefix + lane + ":" + tail` for some colon-free tail. */
  predicate Names(prefix: string, id: string, lane: string) {
    HasPrefix(prefix + lane + ":", id) && ColonFree(id[|prefix| + |lane| + 1..])
  }

  /** Every row's id is an ordinary one or names the row's own lane. */
  predicate IdOk(id: string, lane: string) {
    ColonFree(id) || Names(CLAIM_PREFIX, id, lane) || Names(HOLD_PREFIX, id, lane)
  }

  /** Index of the last colon, or -1. */
  function LastColon(s: string): (r: int)
    ensures -1 <= r < |s|
    ensures r >= 0 ==> s[r] == ':'
    ensures forall i | r < i < |s| :: s[i] != ':'
  {
    if s == [] then -1 else if s[|s| - 1] == ':' then |s| - 1 else LastColon(s[..|s| - 1])
  }

  /** An id names at most one lane under a prefix: the last colon splits it. */
  lemma NamesAt(prefix: string, id: string, lane: string)
    requires Names(prefix, id, lane)
    ensures LastColon(id) == |prefix| + |lane| && id[..|prefix|] == prefix && id[|prefix|..LastColon(id)] == lane
  {
  }

  lemma ClaimIdNames(lane: string, token: string)
    requires ColonFree(token)
    ensures Names(CLAIM_PREFIX, ClaimId(lane, token), lane)
    ensures ClaimId(lane, token)[LastColon(ClaimId(lane, token)) + 1..] == token
    ensures IsClaim(ClaimId(lane, token)) && !IsHold(ClaimId(lane, token)) && !ColonFree(ClaimId(lane, token))
  {
    var id := ClaimId(lane, token);
    assert id == (CLAIM_PREFIX + lane + ":") + token;
    assert id[|CLAIM_PREFIX| + |lane| + 1..] == token;
    NamesAt(CLAIM_PREFIX, id, lane);
    PrefixHasColon(id);
  }

  lemma HoldIdNames(lane: string, now: nat)
    ensures Names(HOLD_PREFIX, HoldId(lane, now), lane)
    ensures IsHold(HoldId(lane, now)) && !IsClaim(HoldId(lane, now)) && !ColonFree(HoldId(lane, now))
  {
    var id, tail := HoldId(lane, now), Decimal.Print(now);
    assert id == (HOLD_PREFIX + lane + ":") + tail;
    assert id[|HOLD_PREFIX| + |lane| + 1..] == tail;
    NamesAt(HOLD_PREFIX, id, lane);
    PrefixHasColon(id);
  }

  lemma NamesPrefix(id: string, lane: string)
    ensures Names(CLAIM_PREFIX, id, lane) ==> IsClaim(id)
    ensures Names(HOLD_PREFIX, id, lane) ==> IsHold(id)
  {
  }

  /** A well-formed row sitting on a colon-free claim's id belongs to that claim's lane. */
  lemma ClaimRowLane(id: string, rowLane: string, lane: string, token: string)
    requires ColonFree(token) && id == ClaimId(lane, token) && IdOk(id, rowLane)
    ensures rowLane == lane
  {
    ClaimIdNames(lane, token);
    NamesPrefix(id, rowLane);
    NamesAt(CLAIM_PREFIX, id, rowLane);
    NamesAt(CLAIM_PREFIX, id, lane);
  }

  lemma HoldRowLane(id: string, rowLane: string, lane: string, now: nat)
    requires id == HoldId(lane, now) && IdOk(id, rowLane)
    ensures rowLane == lane
  {
    HoldIdNames(lane, now);
    NamesPrefix(id, rowLane);
    NamesAt(HOLD_PREFIX, id, rowLane);
    NamesAt(HOLD_PREFIX, id, lane);
  }

  /** Claim ids are injective in the token and the lane once tokens hold no colon... */
  lemma ClaimIdInjective(l1: string, t1: string, l2: string, t2: string)
    requires ColonFree(t1) && ColonFree(t2)
    ensures ClaimId(l1, t1) == ClaimId(l2, t2) <==> l1 == l2 && t1 == t2
  {
    ClaimIdNames(l1, t1);
    ClaimIdNames(l2, t2);
    NamesAt(CLAIM_PREFIX, ClaimId(l1, t1), l1);
    NamesAt(CLAIM_PREFIX, ClaimId(l2, t2), l2);
  }

  /** ...and are not injective without that. */
  lemma ClaimIdCollision()
    ensures ClaimId("s", "1:t") == ClaimId("s:1", "t")
  {
  }

  /* ---- the owner suffix: ` [owner=<host>:<pid>]` at the end of a claim's summary ---- */

  predicate IsSpace(c: char) { c == ' ' || '\t' <= c <= '\r' }

  predicate HostChar(c: char) { c != ']' && c != ':' && !IsSpace(c) }

  predicate ValidHost(h: string) { |h| > 0 && forall i | 0 <= i < |h| :: HostChar(h[i]) }

  /** A host name is anything but blanks, the bracket that closes an owner and the colon before its pid. */
  lemma HostsAre(h: string)
    ensures ValidHost(h) <==> h != "" && ']' !in h && ':' !in h && ' ' !in h && forall c | c in h :: !(9 <= c as int <= 13)
  {
    assert forall i | 0 <= i < |h| :: h[i] in h;
  }

  datatype Owner = Owner(host: string, pid: nat)

  const OWNER_OPEN := " [owner="

  /** `claim_owner_token`, closed by the bracket the suffix ends in. */
  function OwnerText(o: Owner): string { o.host + ":" + Decimal.Print(o.pid) + "]" }

  /** What `claim_lane` stores: the note, and the owner suffix when the caller named one. */
  function ClaimSummary(note: string, owner: Option<Owner>): string {
    match owner
    case None => note
    case Some(o) => note + OWNER_OPEN + OwnerText(o)
  }

  /** Index of the last space-like character before `n`, or -1. */
  function LastSpace(s: string, n: nat): (r: int)
    requires n <= |s|
    ensures -1 <= r < n
    ensures r >= 0 ==> IsSpace(s[r])
    ensures forall i | r < i < n :: !IsSpace(s[i])
  {
    if n == 0 then -1 else if IsSpace(s[n - 1]) then n - 1 else LastSpace(s, n - 1)
  }

  /** Index of the first colon, or the length. */
  function FirstColon(s: string): (r: nat)
    ensures r <= |s| && forall i | 0 <= i < r :: s[i] != ':'
    ensures r < |s| ==> s[r] == ':'
  {
    if s == [] || s[0] == ':' then 0 else 1 + FirstColon(s[1..])
  }

  function WithoutLastNewline(s: string): string { if |s| > 0 && s[|s| - 1] == '\n' then s[..|s| - 1] else s }

  /**
   CLAIM_OWNER_RE.search. Neither the host nor the pid can hold a space, so a match can only start
   at the last one; neither can hold a colon, so the first colon after the opening splits them.
   (`$` also matches before one final newline, which is why the newline is set aside.)
   */
  function ParseOwner(summary: string): Option<Owner> {
    var s := WithoutLastNewline(summary);
    var at := LastSpace(s, |s|);
    if at < 0 || !HasPrefix(OWNER_OPEN, s[at..]) then None
    else ParseOwnerBody(s[at + |OWNER_OPEN|..])
  }

  /** The part after the opening: `<host>:<pid>]`. */
  function ParseOwnerBody(body: string): Option<Owner> {
    var colon := FirstColon(body);
    if colon + 1 >= |body| || body[|body| - 1] != ']' || !ValidHost(body[..colon]) then None
    else
      var pid := body[colon + 1..|body| - 1];
      if |pid| > 0 && Decimal.AllDigits(pid) && pid[0] != '0' then Some(Owner(body[..colon], Decimal.Parse(pid))) else None
  }

  lemma OwnerBody(o: Owner)
    requires ValidHost(o.host) && o.pid > 0
    ensures var body := OwnerText(o); ParseOwnerBody(body) == Some(o) && body[|body| - 1] == ']' && forall i | 0 <= i < |body| :: !IsSpace(body[i])
  {
    var pid := Decimal.Print(o.pid);
    var body := o.host + ":" + pid + "]";
    assert body[|o.host|] == ':';
    forall i | 0 <= i < |o.host| ensures body[i] != ':' && !IsSpace(body[i]) {
      assert body[i] == o.host[i];
    }
    forall i | |o.host| < i < |body| - 1 ensures !IsSpace(body[i]) {
      assert body[i] == pid[i - |o.host| - 1];
    }
    assert body[..|o.host|] == o.host && body[|o.host| + 1..|body| - 1] == pid;
    Decimal.ParsePrint(o.pid);
  }

  lemma LastSpaceIs(s: string, n: nat, at: nat)
    requires at < n <= |s| && IsSpace(s[at]) && forall i | at < i < n :: !IsSpace(s[i])
    ensures LastSpace(s, n) == at
  {
  }

  lemma ParseAfterNote(note: string, body: string)
    requires |body| > 0 && body[|body| - 1] != '\n' && forall i | 0 <= i < |body| :: !IsSpace(body[i])
    ensures ParseOwner(note + OWNER_OPEN + body) == ParseOwnerBody(body)
  {
    var s, n := note + OWNER_OPEN + body, |note|;
    assert s[|s| - 1] == body[|body| - 1];
    assert forall i | 0 < i < |OWNER_OPEN| :: !IsSpace(OWNER_OPEN[i]);
    forall i | n < i < |s| ensures !IsSpace(s[i]) {
      if i < n + |OWNER_OPEN| { assert s[i] == OWNER_OPEN[i - n]; } else { assert s[i] == body[i - n - |OWNER_OPEN|]; }
    }
    LastSpaceIs(s, |s|, n);
    assert s[n..] == OWNER_OPEN + body;
    assert s[n + |OWNER_OPEN|..] == body;
  }

  lemma {:induction false} PrintParse(s: string)
    requires s != "" && Decimal.AllDigits(s) && (s[0] != '0' || |s| == 1)
    ensures Decimal.Print(Decimal.Parse(s)) == s
  {
    var front, last := s[..|s| - 1], s[|s| - 1];
    assert s == front + [last];
    if front == "" {
      assert Decimal.Parse(front) == 0;
    } else {
      PrintParse(front);
      DigitsCount(front);
    }
  }

  lemma {:induction false} DigitsCount(s: string)
    requires s != "" && Decimal.AllDigits(s) && s[0] != '0'
    ensures Decimal.Parse(s) > 0
  {
    var front := s[..|s| - 1];
    if front == "" { assert Decimal.Parse(front) == 0; } else { DigitsCount(front); }
  }

  /** A body is read as an owner exactly when it is that owner's text. */
  lemma BodyIsText(body: string, o: Owner)
    ensures ParseOwnerBody(body) == Some(o) <==> ValidHost(o.host) && o.pid > 0 && body == OwnerText(o)
  {
    if ParseOwnerBody(body) == Some(o) {
      var colon := FirstColon(body);
      var pid := body[colon + 1..|body| - 1];
      PrintParse(pid);
      DigitsCount(pid);
      assert body == body[..colon] + ":" + pid + "]";
    }
    if ValidHost(o.host) && o.pid > 0 { OwnerBody(o); }
  }

  lemma OwnerAtEnd(s: string, at: nat, o: Owner)
    requires at <= |s| && HasPrefix(OWNER_OPEN, s[at..]) && ParseOwnerBody(s[at..][|OWNER_OPEN|..]) == Some(o)
    ensures ValidHost(o.host) && o.pid > 0 && s == ClaimSummary(s[..at], Some(o))
  {
    var tail := s[at..];
    BodyIsText(tail[|OWNER_OPEN|..], o);
    assert tail == OWNER_OPEN + tail[|OWNER_OPEN|..];
    assert s == s[..at] + tail;
    assert s[..at] + (OWNER_OPEN + OwnerText(o)) == s[..at] + OWNER_OPEN + OwnerText(o);
  }

  /** An owner is read from a summary only when the summary ends by naming it, a last newline aside. */
  lemma OwnerIsNamed(summary: string, o: Owner) returns (note: string)
    requires ParseOwner(summary) == Some(o)
    ensures ValidHost(o.host) && o.pid > 0 && WithoutLastNewline(summary) == ClaimSummary(note, Some(o))
  {
    var s := WithoutLastNewline(summary);
    var at := LastSpace(s, |s|);
    note := s[..at];
    TailOf(s, at);
    OwnerAtEnd(s, at, o);
  }

  lemma TailOf(s: string, at: nat)
    requires at <= |s| && HasPrefix(OWNER_OPEN, s[at..])
    ensures at + |OWNER_OPEN| <= |s| && s[at + |OWNER_OPEN|..] == s[at..][|OWNER_OPEN|..]
  {
  }

  /** The reaper reads back exactly the owner the claimer wrote, whatever the note says. */
  lemma OwnerRoundTrip(note: string, o: Owner)
    requires ValidHost(o.host) && o.pid > 0
    ensures ParseOwner(ClaimSummary(note, Some(o))) == Some(o)
  {
    OwnerBody(o);
    ParseAfterNote(note, OwnerText(o));
  }

  /** One newline after it makes no difference. */
  lemma OwnerBeforeNewline(s: string)
    requires s != "" && s[|s| - 1] != '\n'
    ensures ParseOwner(s + "\n") == ParseOwner(s)
  {
    assert WithoutLastNewline(s + "\n") == s;
  }
}
