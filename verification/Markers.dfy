/**
 Markers in GitHub text: JSON between `<!-- agent-estate:v1 ` and ` -->`, found by a pattern that stops at the
 first `} -->` it meets. A marker reads back exactly when nothing inside it spells that.
 */
module Markers {
  import opened Prelude
  import opened Json

  const PREFIX := "<!-- agent-estate:v1 "
  const OLD_PREFIX := "<!-- hill90-supervisor:v1 "
  const CLOSE := "} -->"

  /** The pattern's end stands at position `k`. */
  predicate ClosesAt(s: string, k: int) {
    0 <= k && k + 5 <= |s| && s[k] == '}' && s[k + 1] == ' ' && s[k + 2] == '-' && s[k + 3] == '-' && s[k + 4] == '>'
  }

  ghost predicate Clean(s: string) { forall k: int :: !ClosesAt(s, k) }

  function FindClose(s: string): (r: Option<nat>)
    ensures r.Some? ==> ClosesAt(s, r.value) && forall k | 0 <= k < r.value :: !ClosesAt(s, k)
    ensures r.None? ==> Clean(s)
  {
    if |s| < 5 then None
    else if ClosesAt(s, 0) then Some(0)
    else
      var rest := FindClose(s[1..]);
      assert forall k | k >= 1 :: ClosesAt(s, k) <==> ClosesAt(s[1..], k - 1);
      if rest.Some? then Some(rest.value + 1) else None
  }

  /** `marker`: keys are given in sorted order. */
  function Marker(fields: Members): string { PREFIX + Print(Obj(fields)) + " -->" }

  datatype Found = Found(raw: string, payload: string, after: string)

  /** A match of the pattern with the given opening, right here. */
  function MatchWith(open: string, s: string): (r: Option<Found>)
    ensures r.Some? ==> |r.value.after| < |s|
  {
    if !(open <= s) || |s| == |open| || s[|open|] != '{' then None
    else
      var inner := s[|open| + 1..];
      match FindClose(inner)
      case None => None
      case Some(k) => Some(Found(s[..|open| + k + 6], s[|open|..|open| + k + 2], inner[k + 5..]))
  }

  function MatchHere(s: string): (r: Option<Found>)
    ensures r.Some? ==> |r.value.after| < |s|
  {
    var r := MatchWith(PREFIX, s);
    if r.Some? then r else MatchWith(OLD_PREFIX, s)
  }

  /** The next match at or after the start. */
  function Search(s: string): (r: Option<Found>)
    ensures r.Some? ==> |r.value.after| < |s|
  {
    var here := MatchHere(s);
    if here.Some? then here else if s == "" then None else Search(s[1..])
  }

  type Parsed = (string, Members)

  datatype MarkerError = InvalidJson | NotAnObject

  function MarkersOf(text: string): Result<seq<Parsed>, MarkerError>
    decreases |text|
  {
    match Search(text)
    case None => Ok([])
    case Some(m) =>
      match Parse(m.payload)
      case None => Err(InvalidJson)
      case Some(Obj(fields)) =>
        (match MarkersOf(m.after)
         case Err(e) => Err(e)
         case Ok(more) => Ok([(m.raw, fields)] + more))
      case Some(_) => Err(NotAnObject)
  }

  lemma {:induction false} PayloadOpens(s: string)
    ensures Search(s).Some? ==> Search(s).value.payload != "" && Search(s).value.payload[0] == '{'
  {
    if MatchHere(s).None? && s != "" { PayloadOpens(s[1..]); }
  }

  /** What starts with a brace can only parse as an object: the second check never fires. */
  lemma BraceIsObject(s: string)
    requires s != "" && s[0] == '{'
    ensures Parse(s).Some? ==> Parse(s).value.Obj?
  {
  }

  /** Markers found so far, in front of what the rest of the text holds. */
  function Prepend(values: seq<Parsed>, r: Result<seq<Parsed>, MarkerError>): Result<seq<Parsed>, MarkerError> {
    match r
    case Err(e) => Err(e)
    case Ok(more) => Ok(values + more)
  }

  lemma PrependOne(values: seq<Parsed>, one: Parsed, r: Result<seq<Parsed>, MarkerError>)
    ensures Prepend(values, Prepend([one], r)) == Prepend(values + [one], r)
    ensures Prepend([], r) == r && Prepend(values, Ok([])) == Ok(values)
  {
    assert values + [] == values;
    if r.Ok? { assert values + ([one] + r.value) == values + [one] + r.value && [] + r.value == r.value; }
  }

  /** `_markers`. */
  method ReadMarkers(text: string) returns (r: Result<seq<Parsed>, MarkerError>)
    ensures r == MarkersOf(text)
    ensures r != Err(NotAnObject)
  {
    var values: seq<Parsed>, rest := [], text;
    PrependOne([], ("", NoMembers), MarkersOf(text));
    while true
      invariant MarkersOf(text) == Prepend(values, MarkersOf(rest))
      decreases |rest|
    {
      var found := Search(rest);
      if found.None? {
        PrependOne(values, ("", NoMembers), Ok([]));
        return Ok(values);
      }
      PayloadOpens(rest);
      BraceIsObject(found.value.payload);
      var value := Parse(found.value.payload);
      if value.None? { return Err(InvalidJson); }
      if !value.value.Obj? { return Err(NotAnObject); }
      var one := (found.value.raw, value.value.members);
      PrependOne(values, one, MarkersOf(found.value.after));
      values, rest := values + [one], found.value.after;
    }
  }

  /* ---- the round trip ---- */

  /** Printed objects open and close with braces. */
  lemma {:induction false} MembersClose(members: Members)
    ensures PrintMembers(members) != "" && PrintMembers(members)[|PrintMembers(members)| - 1] == '}'
  {
    if members.Member? && members.rest.Member? { MembersClose(members.rest); }
  }

  /** Where the pattern stops in a marker: at its own end, unless something inside stops it sooner. */
  lemma StopsAtEndIff(body: string)
    requires body != "" && body[|body| - 1] == '}'
    ensures FindClose(body + " -->") == Some(|body| - 1) <==> Clean(body)
    ensures FindClose(body + " -->").Some? && FindClose(body + " -->").value < |body|
    ensures !Clean(body) ==> FindClose(body + " -->").value + 1 < |body|
  {
    var s := body + " -->";
    assert ClosesAt(s, |body| - 1);
    assert forall k | 0 <= k && k + 5 <= |body| :: ClosesAt(s, k) <==> ClosesAt(body, k);
    forall k | 0 <= k < |body| - 1 && k + 5 > |body| ensures !ClosesAt(s, k) {
      assert s[|body| - 1] == '}';
    }
    if !Clean(body) {
      var k :| ClosesAt(body, k);
      assert ClosesAt(s, k);
    }
  }

  lemma MatchJson(open: string, json: string, k: nat)
    requires json != "" && json[0] == '{' && FindClose(json[1..] + " -->") == Some(k) && k + 2 <= |json|
    ensures MatchWith(open, open + json + " -->") ==
      Some(Found((open + json + " -->")[..|open| + k + 6], json[..k + 2], (json[1..] + " -->")[k + 5..]))
  {
    var s := open + json + " -->";
    assert s[|open| + 1..] == json[1..] + " -->";
    assert s[|open|..|open| + k + 2] == json[..k + 2];
  }

  /** The printed object behind its opening brace. */
  lemma BodyOf(fields: Members)
    ensures var json := Print(Obj(fields)); json != "" && json[0] == '{' && json[1..] != "" && json[|json| - 1] == '}'
  {
    MembersClose(fields);
    var json := Print(Obj(fields));
    if fields.Member? { assert json[|json| - 1] == PrintMembers(fields)[|PrintMembers(fields)| - 1]; }
  }

  lemma CleanReadsBack(fields: Members)
    requires Clean(Print(Obj(fields)))
    ensures MarkersOf(Marker(fields)) == Ok([(Marker(fields), fields)])
  {
    var json, text := Print(Obj(fields)), Marker(fields);
    BodyOf(fields);
    CleanTail(json);
    StopsAtEndIff(json[1..]);
    var k: nat := |json| - 2;
    MatchJson(PREFIX, json, k);
    assert json[..k + 2] == json && text[..|PREFIX| + k + 6] == text && (json[1..] + " -->")[k + 5..] == "";
    ParseInvertsPrint(Obj(fields));
    NothingInNothing();
    assert [(text, fields)] + [] == [(text, fields)];
  }

  /** The same whatever follows. */
  lemma StopsAtEndBefore(body: string, after: string)
    requires body != "" && body[|body| - 1] == '}' && Clean(body)
    ensures FindClose(body + " -->" + after) == Some(|body| - 1)
  {
    var s := body + " -->" + after;
    assert ClosesAt(s, |body| - 1);
    assert forall k | 0 <= k && k + 5 <= |body| :: ClosesAt(s, k) <==> ClosesAt(body, k);
    forall k | 0 <= k < |body| - 1 ensures !ClosesAt(s, k) { assert s[|body| - 1] == '}'; }
  }

  lemma MatchThen(open: string, json: string, after: string)
    requires |json| >= 2 && json[0] == '{' && FindClose(json[1..] + " -->" + after) == Some(|json| - 2)
    ensures MatchWith(open, open + json + " -->" + after) == Some(Found(open + json + " -->", json, after))
  {
    var s := open + json + " -->" + after;
    assert s[|open| + 1..] == json[1..] + " -->" + after;
    assert s[|open|..|open| + |json|] == json && s[..|open| + |json| + 4] == open + json + " -->";
    assert (json[1..] + " -->" + after)[|json| + 3..] == after;
  }

  lemma MatchAtStart(open: string, fields: Members, after: string)
    requires Clean(Print(Obj(fields)))
    ensures MatchWith(open, open + Print(Obj(fields)) + " -->" + after) == Some(Found(open + Print(Obj(fields)) + " -->", Print(Obj(fields)), after))
  {
    BodyOf(fields);
    CleanTail(Print(Obj(fields)));
    StopsAtEndBefore(Print(Obj(fields))[1..], after);
    MatchThen(open, Print(Obj(fields)), after);
  }

  lemma FirstMatch(old_: bool, fields: Members, after: string)
    requires Clean(Print(Obj(fields)))
    ensures var raw := (if old_ then OLD_PREFIX else PREFIX) + Print(Obj(fields)) + " -->";
      Search(raw + after) == Some(Found(raw, Print(Obj(fields)), after))
  {
    var raw := (if old_ then OLD_PREFIX else PREFIX) + Print(Obj(fields)) + " -->";
    MatchAtStart(if old_ then OLD_PREFIX else PREFIX, fields, after);
    if old_ { NotThePrefix(raw + after); }
  }

  lemma NotThePrefix(s: string)
    requires |s| > 5 && s[5] == 'h'
    ensures MatchWith(PREFIX, s).None?
  {
    assert PREFIX[5] == 'a';
  }

  lemma {:induction false} SearchSkips(before: string, s: string)
    requires '<' !in before
    ensures Search(before + s) == Search(s)
  {
    if before == "" {
      assert before + s == s;
    } else {
      assert (before + s)[0] == before[0] && before[0] in before;
      assert PREFIX[0] == '<' && OLD_PREFIX[0] == '<';
      assert (before + s)[1..] == before[1..] + s;
      SearchSkips(before[1..], s);
    }
  }

  /** Under either name, after text without an angle bracket and whatever follows, a marker is found and read as itself. */
  lemma MarkerAmongText(before: string, old_: bool, fields: Members, after: string)
    requires '<' !in before && Clean(Print(Obj(fields)))
    ensures var raw := (if old_ then "<!-- hill90-supervisor:v1 " else "<!-- agent-estate:v1 ") + Print(Obj(fields)) + " -->";
      MarkersOf(before + raw + after) == Prepend([(raw, fields)], MarkersOf(after))
  {
    var open := if old_ then OLD_PREFIX else PREFIX;
    var raw := open + Print(Obj(fields)) + " -->";
    assert before + raw + after == before + (raw + after);
    SearchSkips(before, raw + after);
    FirstMatch(old_, fields, after);
    ParseInvertsPrint(Obj(fields));
  }

  lemma UncleanFails(fields: Members)
    requires !Clean(Print(Obj(fields)))
    ensures MarkersOf(Marker(fields)) == Err(InvalidJson)
  {
    var json := Print(Obj(fields));
    BodyOf(fields);
    CleanTail(json);
    StopsAtEndIff(json[1..]);
    var k := FindClose(json[1..] + " -->").value;
    MatchJson(PREFIX, json, k);
    CutShortNeverParses(Obj(fields), k + 2);
  }

  /**
   A marker on its own reads back as itself exactly when its JSON holds no `} -->`; when it does, reading
   it fails, because what the pattern cuts off is no document.
   */
  lemma MarkerRoundTrip(fields: Members)
    ensures MarkersOf(Marker(fields)) == if Clean(Print(Obj(fields))) then Ok([(Marker(fields), fields)]) else Err(InvalidJson)
  {
    if Clean(Print(Obj(fields))) { CleanReadsBack(fields); } else { UncleanFails(fields); }
  }

  lemma NothingInNothing()
    ensures MarkersOf("") == Ok([])
  {
    assert MatchWith(PREFIX, "").None? && MatchWith(OLD_PREFIX, "").None?;
  }

  lemma CleanTail(json: string)
    requires json != "" && json[0] == '{'
    ensures Clean(json) <==> Clean(json[1..])
  {
    if Clean(json[1..]) {
      forall k ensures !ClosesAt(json, k) { assert k >= 1 ==> (ClosesAt(json, k) <==> ClosesAt(json[1..], k - 1)); }
    }
    if Clean(json) {
      forall k ensures !ClosesAt(json[1..], k) { assert k >= 0 ==> (ClosesAt(json[1..], k) <==> ClosesAt(json, k + 1)); }
    }
  }

  /* ---- what can spell the pattern ---- */

  ghost predicate AllClean(j: Json) {
    match j
    case Str(s) => Clean(s)
    case Arr(items) => ItemsClean(items)
    case Obj(members) => MembersClean(members)
  }

  ghost predicate ItemsClean(items: Items) {
    match items
    case NoItems => true
    case Item(head, tail) => AllClean(head) && ItemsClean(tail)
  }

  ghost predicate MembersClean(members: Members) {
    match members
    case NoMembers => true
    case Member(key, value, rest) => Clean(key) && AllClean(value) && MembersClean(rest)
  }

  /** A character the pattern does not have separates what is before it from what is after. */
  lemma SplitAt(a: string, x: char, b: string)
    requires x !in CLOSE
    ensures Clean(a + [x] + b) <==> Clean(a) && Clean(b)
  {
    var s, n := a + [x] + b, |a|;
    assert s[n] == x;
    assert CLOSE == ['}', ' ', '-', '-', '>'];
    assert forall k: int | 0 <= k && k + 5 <= n :: ClosesAt(s, k) <==> ClosesAt(a, k);
    assert forall k: int | k > n :: ClosesAt(s, k) <==> ClosesAt(b, k - n - 1);
    if !Clean(b) {
      var k: int :| ClosesAt(b, k);
      assert ClosesAt(s, k + n + 1);
    }
    if !Clean(a) {
      var k: int :| ClosesAt(a, k);
      assert ClosesAt(s, k);
    }
    forall k: int | n - 5 < k <= n ensures !ClosesAt(s, k) { }
  }

  /** Text without a closing brace cannot start the pattern. */
  lemma NoBraceFirst(a: string, b: string)
    requires '}' !in a
    ensures Clean(a + b) <==> Clean(b)
  {
    var s, n := a + b, |a|;
    assert forall k: int | 0 <= k < n :: !ClosesAt(s, k) by { assert forall k | 0 <= k < n :: s[k] == a[k]; }
    assert forall k: int | k >= n :: ClosesAt(s, k) <==> ClosesAt(b, k - n);
    if !Clean(b) {
      var k: int :| ClosesAt(b, k);
      assert ClosesAt(s, k + n);
    }
  }

  lemma OneBefore(c: char, b: string)
    ensures Clean([c] + b) <==> !ClosesAt([c] + b, 0) && Clean(b)
  {
    var s := [c] + b;
    assert forall k: int | k >= 1 :: ClosesAt(s, k) <==> ClosesAt(b, k - 1);
    if !Clean(b) {
      var k: int :| ClosesAt(b, k);
      assert ClosesAt(s, k + 1);
    }
  }

  lemma EscapeHead(s: string, x: char)
    requires x == ' ' || x == '-' || x == '>'
    ensures (Escape(s) != "" && Escape(s)[0] == x) <==> (s != "" && s[0] == x)
    ensures s != "" && s[0] == x ==> Escape(s)[1..] == Escape(s[1..])
  {
    if s != "" { assert Escape(s)[0] == EscapeChar(s[0])[0]; }
  }

  /** The rest of the pattern survives escaping, and escaping never makes it. */
  lemma EscapeTail(s: string)
    ensures ClosesAt("}" + Escape(s), 0) <==> ClosesAt("}" + s, 0)
  {
    EscapeHead(s, ' ');
    if s != "" && s[0] == ' ' {
      EscapeHead(s[1..], '-');
      if |s| > 1 && s[1] == '-' {
        EscapeHead(s[2..], '-');
        assert s[1..][1..] == s[2..];
        if |s| > 2 && s[2] == '-' {
          EscapeHead(s[3..], '>');
          assert s[2..][1..] == s[3..];
        }
      }
    }
  }

  lemma EscapesHaveNoBrace(c: char)
    requires c != '}'
    ensures '}' !in EscapeChar(c)
  {
    assert forall d: nat | d < 16 :: HexDigit(d) != '}';
  }

  lemma {:induction false} EscapeClean(s: string)
    ensures Clean(Escape(s)) <==> Clean(s)
  {
    if s != "" {
      var c, rest := s[0], s[1..];
      EscapeClean(rest);
      OneBefore(c, rest);
      assert s == [c] + rest;
      if c == '}' {
        OneBefore(c, Escape(rest));
        EscapeTail(rest);
      } else {
        EscapesHaveNoBrace(c);
        NoBraceFirst(EscapeChar(c), Escape(rest));
      }
    }
  }

  lemma Quoted(body: string, rest: string)
    ensures Clean("\"" + body + "\"" + rest) <==> Clean(body) && Clean(rest)
  {
    NoBraceFirst("\"", body + ['\"'] + rest);
    SplitAt(body, '\"', rest);
    assert "\"" + body + "\"" + rest == "\"" + (body + ['\"'] + rest);
  }

  lemma StringClean(s: string)
    ensures Clean(PrintString(s)) <==> Clean(s)
  {
    EscapeClean(s);
    Quoted(Escape(s), "");
    assert PrintString(s) + "" == PrintString(s);
  }

  /** One more character at the end can only complete the pattern if it is its last. */
  lemma OneAfter(a: string, x: char)
    requires x != '>'
    ensures Clean(a + [x]) <==> Clean(a)
  {
    var s := a + [x];
    assert forall k: int | k + 5 <= |a| :: ClosesAt(s, k) <==> ClosesAt(a, k);
    assert s[|a|] == x;
    if !Clean(a) {
      var k: int :| ClosesAt(a, k);
      assert ClosesAt(s, k);
    }
  }

  lemma MemberSplits(key: string, value: string, more: string)
    ensures Clean(key + ":" + value + "," + more) <==> Clean(key) && Clean(value) && Clean(more)
    ensures Clean(key + ":" + value + "}") <==> Clean(key) && Clean(value)
  {
    SplitAt(value, ',', more);
    SplitAt(key, ':', value + [','] + more);
    assert key + ":" + value + "," + more == key + [':'] + (value + [','] + more);
    OneAfter(value, '}');
    SplitAt(key, ':', value + ['}']);
    assert key + ":" + value + "}" == key + [':'] + (value + ['}']);
  }

  /** JSON holds the pattern exactly when one of its strings does. */
  lemma {:induction false} PrintClean(j: Json)
    ensures Clean(Print(j)) <==> AllClean(j)
    decreases j
  {
    match j
    case Str(s) => StringClean(s);
    case Arr(items) =>
      if items.Item? {
        ItemsPrintClean(items);
        NoBraceFirst("[", PrintItems(items));
      }
    case Obj(members) =>
      if members.Member? {
        MembersPrintClean(members);
        NoBraceFirst("{", PrintMembers(members));
      }
  }

  lemma {:induction false} ItemsPrintClean(items: Items)
    requires items.Item?
    ensures Clean(PrintItems(items)) <==> ItemsClean(items)
    decreases items
  {
    var head := Print(items.head);
    PrintClean(items.head);
    if items.tail.NoItems? {
      OneAfter(head, ']');
    } else {
      ItemsPrintClean(items.tail);
      SplitAt(head, ',', PrintItems(items.tail));
      assert PrintItems(items) == head + [','] + PrintItems(items.tail);
    }
  }

  lemma {:induction false} MembersPrintClean(members: Members)
    requires members.Member?
    ensures Clean(PrintMembers(members)) <==> MembersClean(members)
    decreases members
  {
    StringClean(members.key);
    PrintClean(members.value);
    MemberSplits(PrintString(members.key), Print(members.value), PrintMembers(members.rest));
    if members.rest.Member? { MembersPrintClean(members.rest); }
  }
}
