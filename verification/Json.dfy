/**
 JSON text as Python prints it (compact, ASCII only) and reads it back, for documents made of strings,
 arrays and objects; strings are escaped as section 7 of RFC 8259 allows.
 */
module Json {
  import opened Prelude

  datatype Json = Str(s: string) | Arr(items: Items) | Obj(members: Members)

  datatype Items = NoItems | Item(head: Json, tail: Items)

  datatype Members = NoMembers | Member(key: string, value: Json, rest: Members)

  /* ---- printing ---- */

  function HexDigit(d: nat): char
    requires d < 16
  {
    if d < 10 then '0' + d as char else 'a' + (d - 10) as char
  }

  function Hex4(n: nat): string
    requires n < 0x10000
  {
    [HexDigit(n / 4096), HexDigit(n / 256 % 16), HexDigit(n / 16 % 16), HexDigit(n % 16)]
  }

  function Unicode(n: nat): string
    requires n < 0x10000
  {
    "\\u" + Hex4(n)
  }

  /** Everything outside the printable ASCII characters is escaped, a character beyond the first plane as two halves. */
  function EscapeChar(c: char): string {
    if c == '\"' then "\\\"" else if c == '\\' then "\\\\"
    else if c == '\n' then "\\n" else if c == '\r' then "\\r" else if c == '\t' then "\\t"
    else if c as int == 8 then "\\b" else if c as int == 12 then "\\f"
    else if ' ' <= c <= '~' then [c]
    else
      var n := c as int;
      if n < 0x10000 then Unicode(n) else Unicode(0xD800 + (n - 0x10000) / 1024) + Unicode(0xDC00 + (n - 0x10000) % 1024)
  }

  function Escape(s: string): string { if s == "" then "" else EscapeChar(s[0]) + Escape(s[1..]) }

  function PrintString(s: string): string { "\"" + Escape(s) + "\"" }

  predicate PlainChar(c: char) { ' ' <= c <= '~' && c != '\"' && c != '\\' }

  predicate Plain(s: string) { forall c | c in s :: PlainChar(c) }

  lemma PlainCharPrints(c: char)
    requires PlainChar(c)
    ensures EscapeChar(c) == [c]
  {
  }

  /** Plain text is printed as it is. */
  lemma {:induction false} PlainPrints(s: string)
    requires Plain(s)
    ensures Escape(s) == s
  {
    if s != "" {
      var rest := s[1..];
      forall c | c in rest ensures PlainChar(c) { assert c in s; }
      PlainCharPrints(s[0]);
      PlainPrints(rest);
      assert s == [s[0]] + rest;
    }
  }

  function Print(j: Json): string {
    match j
    case Str(s) => PrintString(s)
    case Arr(NoItems) => "[]"
    case Arr(items) => "[" + PrintItems(items)
    case Obj(NoMembers) => "{}"
    case Obj(members) => "{" + PrintMembers(members)
  }

  /** The items and the closing bracket. */
  function PrintItems(items: Items): string {
    match items
    case NoItems => "]"
    case Item(head, NoItems) => Print(head) + "]"
    case Item(head, tail) => Print(head) + "," + PrintItems(tail)
  }

  function PrintMembers(members: Members): string {
    match members
    case NoMembers => "}"
    case Member(key, value, NoMembers) => PrintString(key) + ":" + Print(value) + "}"
    case Member(key, value, rest) => PrintString(key) + ":" + Print(value) + "," + PrintMembers(rest)
  }

  /* ---- parsing: what was read, and the text after it ---- */

  predicate IsBlank(c: char) { c == ' ' || c == '\t' || c == '\n' || c == '\r' }

  function Skip(s: string): (r: string)
    ensures |r| <= |s| && (r != "" ==> !IsBlank(r[0]))
  {
    if s != "" && IsBlank(s[0]) then Skip(s[1..]) else s
  }

  function HexValue(c: char): (r: Option<nat>)
    ensures r.Some? ==> r.value < 16
  {
    if '0' <= c <= '9' then Some((c - '0') as nat)
    else if 'a' <= c <= 'f' then Some((c - 'a') as nat + 10)
    else if 'A' <= c <= 'F' then Some((c - 'A') as nat + 10)
    else None
  }

  function ReadHex4(s: string): (r: Option<nat>)
    ensures r.Some? ==> |s| >= 4 && r.value < 0x10000
  {
    if |s| < 4 || HexValue(s[0]).None? || HexValue(s[1]).None? || HexValue(s[2]).None? || HexValue(s[3]).None? then None
    else Some(HexValue(s[0]).value * 4096 + HexValue(s[1]).value * 256 + HexValue(s[2]).value * 16 + HexValue(s[3]).value)
  }

  /** After `\u`. Half a pair on its own is no character here. */
  function ReadUnicode(s: string): (r: Option<(char, string)>)
    ensures r.Some? ==> |r.value.1| < |s|
  {
    var first := ReadHex4(s);
    if first.None? then None
    else if !(0xD800 <= first.value <= 0xDFFF) then Some((first.value as char, s[4..]))
    else if first.value <= 0xDBFF && |s| >= 10 && s[4] == '\\' && s[5] == 'u' then
      var second := ReadHex4(s[6..]);
      if second.Some? && 0xDC00 <= second.value <= 0xDFFF then
        Some(((0x10000 + (first.value - 0xD800) * 1024 + (second.value - 0xDC00)) as char, s[10..]))
      else None
    else None
  }

  /** One character of a string's body, which is not its closing quote. */
  function ReadChar(s: string): (r: Option<(char, string)>)
    ensures r.Some? ==> |r.value.1| < |s|
  {
    if s == "" || s[0] < ' ' then None
    else if s[0] != '\\' then Some((s[0], s[1..]))
    else if |s| < 2 then None
    else if s[1] == '\"' || s[1] == '\\' || s[1] == '/' then Some((s[1], s[2..]))
    else if s[1] == 'n' then Some(('\n', s[2..]))
    else if s[1] == 'r' then Some(('\r', s[2..]))
    else if s[1] == 't' then Some(('\t', s[2..]))
    else if s[1] == 'b' then Some((8 as char, s[2..]))
    else if s[1] == 'f' then Some((12 as char, s[2..]))
    else if s[1] == 'u' then ReadUnicode(s[2..])
    else None
  }

  /** The body of a string and its closing quote. */
  function ReadString(s: string): (r: Option<(string, string)>)
    ensures r.Some? ==> |r.value.1| < |s|
    decreases |s|
  {
    if s != "" && s[0] == '\"' then Some(("", s[1..]))
    else
      match ReadChar(s)
      case None => None
      case Some((c, rest)) =>
        match ReadString(rest)
        case None => None
        case Some((body, after)) => Some(([c] + body, after))
  }

  function Read(s: string): (r: Option<(Json, string)>)
    ensures r.Some? ==> |r.value.1| < |s|
    decreases |s|, 1
  {
    var t := Skip(s);
    if t == "" then None
    else if t[0] == '\"' then
      (match ReadString(t[1..])
       case None => None
       case Some((body, rest)) => Some((Str(body), rest)))
    else if t[0] == '[' then
      var u := Skip(t[1..]);
      if u != "" && u[0] == ']' then Some((Arr(NoItems), u[1..]))
      else
        match ReadItems(u)
        case None => None
        case Some((items, rest)) => Some((Arr(items), rest))
    else if t[0] == '{' then
      var u := Skip(t[1..]);
      if u != "" && u[0] == '}' then Some((Obj(NoMembers), u[1..]))
      else
        match ReadMembers(u)
        case None => None
        case Some((members, rest)) => Some((Obj(members), rest))
    else None
  }

  function ReadItems(s: string): (r: Option<(Items, string)>)
    ensures r.Some? ==> |r.value.1| < |s|
    decreases |s|, 2
  {
    match Read(s)
    case None => None
    case Some((head, rest)) =>
      var t := Skip(rest);
      if t == "" then None
      else if t[0] == ']' then Some((Item(head, NoItems), t[1..]))
      else if t[0] == ',' then
        (match ReadItems(t[1..])
         case None => None
         case Some((tail, after)) => Some((Item(head, tail), after)))
      else None
  }

  /** `"key":`. */
  function ReadKey(s: string): (r: Option<(string, string)>)
    ensures r.Some? ==> |r.value.1| < |s|
  {
    var t := Skip(s);
    if t == "" || t[0] != '\"' then None
    else
      match ReadString(t[1..])
      case None => None
      case Some((key, rest)) =>
        var u := Skip(rest);
        if u == "" || u[0] != ':' then None else Some((key, u[1..]))
  }

  function ReadMembers(s: string): (r: Option<(Members, string)>)
    ensures r.Some? ==> |r.value.1| < |s|
    decreases |s|, 2
  {
    match ReadKey(s)
    case None => None
    case Some((key, rest)) =>
      match Read(rest)
      case None => None
      case Some((value, after)) =>
        var t := Skip(after);
        if t == "" then None
        else if t[0] == '}' then Some((Member(key, value, NoMembers), t[1..]))
        else if t[0] == ',' then
          (match ReadMembers(t[1..])
           case None => None
           case Some((more, last)) => Some((Member(key, value, more), last)))
        else None
  }

  /** `json.loads`. */
  function Parse(s: string): Option<Json> {
    match Read(s)
    case None => None
    case Some((j, rest)) => if Skip(rest) == "" then Some(j) else None
  }

  /* ---- reading back what was printed ---- */

  lemma DigitRoundTrip(d: nat)
    requires d < 16
    ensures HexValue(HexDigit(d)) == Some(d)
  {
  }

  lemma HexPlaces(n: nat)
    requires n < 0x10000
    ensures n / 4096 < 16 && n / 4096 * 4096 + n / 256 % 16 * 256 + n / 16 % 16 * 16 + n % 16 == n
  {
    var a, b := n / 16, n / 256;
    assert n == a * 16 + n % 16 && a == b * 16 + a % 16 && b == n / 4096 * 16 + b % 16;
  }

  lemma HexRoundTrip(n: nat, rest: string)
    requires n < 0x10000
    ensures ReadHex4(Hex4(n) + rest) == Some(n)
  {
    HexPlaces(n);
    DigitRoundTrip(n / 4096);
    DigitRoundTrip(n / 256 % 16);
    DigitRoundTrip(n / 16 % 16);
    DigitRoundTrip(n % 16);
  }

  lemma UnicodeRoundTrip(n: nat, rest: string)
    requires n < 0x10000 && !(0xD800 <= n <= 0xDFFF)
    ensures ReadUnicode(Hex4(n) + rest) == Some((n as char, rest))
  {
    HexRoundTrip(n, rest);
    assert (Hex4(n) + rest)[4..] == rest;
  }

  lemma PairReads(x: string, y: string, hi: nat, lo: nat, rest: string)
    requires |x| == 4 && |y| == 4 && hi < 1024 && lo < 1024
    requires ReadHex4(x + ("\\u" + (y + rest))) == Some(0xD800 + hi) && ReadHex4(y + rest) == Some(0xDC00 + lo)
    ensures ReadUnicode(x + ("\\u" + (y + rest))) == Some(((0x10000 + hi * 1024 + lo) as char, rest))
  {
    var s := x + ("\\u" + (y + rest));
    assert s[4] == '\\' && s[5] == 'u' && s[6..] == y + rest && s[10..] == rest;
  }

  lemma PairRoundTrip(hi: nat, lo: nat, rest: string)
    requires hi < 1024 && lo < 1024
    ensures ReadUnicode(Hex4(0xD800 + hi) + ("\\u" + (Hex4(0xDC00 + lo) + rest))) == Some(((0x10000 + hi * 1024 + lo) as char, rest))
  {
    HexRoundTrip(0xD800 + hi, "\\u" + (Hex4(0xDC00 + lo) + rest));
    HexRoundTrip(0xDC00 + lo, rest);
    PairReads(Hex4(0xD800 + hi), Hex4(0xDC00 + lo), hi, lo, rest);
  }

  lemma ReadsEscapedUnicode(t: string)
    ensures ReadChar("\\u" + t) == ReadUnicode(t)
  {
    assert ("\\u" + t)[2..] == t;
  }

  lemma CharRoundTrip(c: char, rest: string)
    ensures ReadChar(EscapeChar(c) + rest) == Some((c, rest))
    ensures EscapeChar(c) != "" && EscapeChar(c)[0] != '\"'
  {
    var n := c as int;
    if c in "\"\\\n\r\t" || n == 8 || n == 12 {
      assert (EscapeChar(c) + rest)[2..] == rest;
    } else if ' ' <= c <= '~' {
      assert (EscapeChar(c) + rest)[1..] == rest;
    } else if n < 0x10000 {
      PlainRoundTrip(c, rest);
    } else {
      SplitRoundTrip(c, rest);
    }
  }

  lemma PlainRoundTrip(c: char, rest: string)
    requires !(' ' <= c <= '~') && c as int !in {8, 9, 10, 12, 13} && c as int < 0x10000
    ensures ReadChar(EscapeChar(c) + rest) == Some((c, rest)) && EscapeChar(c) != "" && EscapeChar(c)[0] != '\"'
  {
    assert EscapeChar(c) + rest == "\\u" + (Hex4(c as int) + rest);
    ReadsEscapedUnicode(Hex4(c as int) + rest);
    UnicodeRoundTrip(c as int, rest);
  }

  lemma SplitText(x: string, y: string, rest: string)
    ensures ("\\u" + x) + ("\\u" + y) + rest == "\\u" + (x + ("\\u" + (y + rest)))
  {
  }

  lemma WideEscape(c: char, hi: nat, lo: nat)
    requires c as int >= 0x10000 && hi == (c as int - 0x10000) / 1024 && lo == (c as int - 0x10000) % 1024
    ensures hi < 1024 && lo < 1024 && 0x10000 + hi * 1024 + lo == c as int
    ensures EscapeChar(c) == Unicode(0xD800 + hi) + Unicode(0xDC00 + lo)
  {
  }

  lemma SplitRoundTrip(c: char, rest: string)
    requires c as int >= 0x10000
    ensures ReadChar(EscapeChar(c) + rest) == Some((c, rest)) && EscapeChar(c) != "" && EscapeChar(c)[0] != '\"'
  {
    var hi: nat, lo: nat := (c as int - 0x10000) / 1024, (c as int - 0x10000) % 1024;
    WideEscape(c, hi, lo);
    PairReadsEscaped(hi, lo, rest);
  }

  lemma PairReadsEscaped(hi: nat, lo: nat, rest: string)
    requires hi < 1024 && lo < 1024
    ensures ReadChar(Unicode(0xD800 + hi) + Unicode(0xDC00 + lo) + rest) == Some(((0x10000 + hi * 1024 + lo) as char, rest))
  {
    var x, y := Hex4(0xD800 + hi), Hex4(0xDC00 + lo);
    SplitText(x, y, rest);
    ReadsEscapedUnicode(x + ("\\u" + (y + rest)));
    PairRoundTrip(hi, lo, rest);
  }

  lemma {:induction false} StringRoundTrip(s: string, rest: string)
    ensures ReadString(Escape(s) + "\"" + rest) == Some((s, rest))
  {
    var text := Escape(s) + "\"" + rest;
    if s == "" {
      assert text[1..] == rest;
    } else {
      var more := Escape(s[1..]) + "\"" + rest;
      assert text == EscapeChar(s[0]) + more;
      CharRoundTrip(s[0], more);
      StringRoundTrip(s[1..], rest);
      assert [s[0]] + s[1..] == s;
    }
  }

  lemma QuotedRoundTrip(s: string, rest: string)
    ensures Read(PrintString(s) + rest) == Some((Str(s), rest))
  {
    var text := PrintString(s) + rest;
    assert text[1..] == Escape(s) + "\"" + rest;
    StringRoundTrip(s, rest);
  }

  lemma KeyRoundTrip(key: string, rest: string)
    ensures ReadKey(PrintString(key) + ":" + rest) == Some((key, rest))
  {
    var text, tail := PrintString(key) + ":" + rest, ":" + rest;
    assert text[1..] == Escape(key) + "\"" + tail;
    StringRoundTrip(key, tail);
    assert tail[1..] == rest;
  }

  /** Printed values start with a bracket or a quote. */
  lemma PrintStarts(j: Json)
    ensures Print(j) != "" && Print(j)[0] in "\"[{"
  {
  }

  lemma EmptyRoundTrip(rest: string)
    ensures Read("[]" + rest) == Some((Arr(NoItems), rest)) && Read("{}" + rest) == Some((Obj(NoMembers), rest))
  {
    assert ("[]" + rest)[1..] == "]" + rest && ("]" + rest)[1..] == rest;
    assert ("{}" + rest)[1..] == "}" + rest && ("}" + rest)[1..] == rest;
  }

  lemma OpenedArray(text: string)
    requires text != "" && !IsBlank(text[0]) && text[0] != ']' && ReadItems(text).Some?
    ensures Read("[" + text) == Some((Arr(ReadItems(text).value.0), ReadItems(text).value.1))
  {
    assert ("[" + text)[1..] == text;
  }

  lemma OpenedObject(text: string)
    requires text != "" && !IsBlank(text[0]) && text[0] != '}' && ReadMembers(text).Some?
    ensures Read("{" + text) == Some((Obj(ReadMembers(text).value.0), ReadMembers(text).value.1))
  {
    assert ("{" + text)[1..] == text;
  }

  lemma {:induction false} ArrayRoundTrip(items: Items, rest: string)
    requires items.Item?
    ensures Read("[" + PrintItems(items) + rest) == Some((Arr(items), rest))
    decreases items, 1
  {
    var text := PrintItems(items) + rest;
    PrintStarts(items.head);
    assert text[0] == Print(items.head)[0];
    ItemsRoundTrip(items, rest);
    OpenedArray(text);
    assert "[" + PrintItems(items) + rest == "[" + text;
  }

  lemma {:induction false} ObjectRoundTrip(members: Members, rest: string)
    requires members.Member?
    ensures Read("{" + PrintMembers(members) + rest) == Some((Obj(members), rest))
    decreases members, 1
  {
    var text := PrintMembers(members) + rest;
    assert PrintString(members.key)[0] == '\"';
    assert text[0] == '\"';
    MembersRoundTrip(members, rest);
    OpenedObject(text);
    assert "{" + PrintMembers(members) + rest == "{" + text;
  }

  /** Whatever is printed is read back, and nothing after it is touched. */
  lemma {:induction false} RoundTrip(j: Json, rest: string)
    ensures Read(Print(j) + rest) == Some((j, rest))
    decreases j, 2
  {
    match j
    case Str(s) => QuotedRoundTrip(s, rest);
    case Arr(items) => if items.NoItems? { EmptyRoundTrip(rest); } else { ArrayRoundTrip(items, rest); }
    case Obj(members) => if members.NoMembers? { EmptyRoundTrip(rest); } else { ObjectRoundTrip(members, rest); }
  }

  lemma {:induction false} ItemsRoundTrip(items: Items, rest: string)
    requires items.Item?
    ensures ReadItems(PrintItems(items) + rest) == Some((items, rest))
    decreases items, 0
  {
    if items.tail.NoItems? {
      assert PrintItems(items) + rest == Print(items.head) + ("]" + rest);
      RoundTrip(items.head, "]" + rest);
      assert ("]" + rest)[1..] == rest;
    } else {
      var more := "," + PrintItems(items.tail) + rest;
      assert PrintItems(items) + rest == Print(items.head) + more;
      RoundTrip(items.head, more);
      assert more[1..] == PrintItems(items.tail) + rest;
      ItemsRoundTrip(items.tail, rest);
    }
  }

  /** One member, given what its key and its value leave. */
  lemma MemberReads(s: string, key: string, r: string, value: Json, follow: string)
    requires ReadKey(s) == Some((key, r)) && Read(r) == Some((value, follow)) && follow != "" && (follow[0] == '}' || follow[0] == ',')
    ensures ReadMembers(s) ==
      if follow[0] == '}' then Some((Member(key, value, NoMembers), follow[1..]))
      else if ReadMembers(follow[1..]).None? then None
      else Some((Member(key, value, ReadMembers(follow[1..]).value.0), ReadMembers(follow[1..]).value.1))
  {
  }

  lemma Regroup(k: string, v: string, more: string, rest: string)
    ensures k + ":" + v + "}" + rest == k + ":" + (v + ("}" + rest))
    ensures k + ":" + v + "," + more + rest == k + ":" + (v + ("," + (more + rest)))
    ensures ("}" + rest)[1..] == rest && ("," + (more + rest))[1..] == more + rest
  {
  }

  lemma {:induction false} MembersRoundTrip(members: Members, rest: string)
    requires members.Member?
    ensures ReadMembers(PrintMembers(members) + rest) == Some((members, rest))
    decreases members, 0
  {
    var k, v, more := PrintString(members.key), Print(members.value), PrintMembers(members.rest);
    var last := members.rest.NoMembers?;
    var follow := if last then "}" + rest else "," + (more + rest);
    Regroup(k, v, more, rest);
    assert PrintMembers(members) + rest == k + ":" + (v + follow);
    RoundTrip(members.value, follow);
    KeyRoundTrip(members.key, v + follow);
    if !last { MembersRoundTrip(members.rest, rest); }
    MemberReads(k + ":" + (v + follow), members.key, v + follow, members.value, follow);
  }

  /** `json.loads` inverts `json.dumps`. */
  lemma ParseInvertsPrint(j: Json)
    ensures Parse(Print(j)) == Some(j)
  {
    RoundTrip(j, "");
    assert Print(j) + "" == Print(j);
  }

  /* ---- a document cut short never parses ---- */

  lemma {:induction false} SkipExtends(s: string, q: string)
    requires Skip(s) != ""
    ensures Skip(s + q) == Skip(s) + q
  {
    if IsBlank(s[0]) {
      assert (s + q)[1..] == s[1..] + q;
      SkipExtends(s[1..], q);
    }
  }

  lemma ReadHexExtends(s: string, q: string)
    requires ReadHex4(s).Some?
    ensures ReadHex4(s + q) == ReadHex4(s)
  {
  }

  lemma ReadCharExtends(s: string, q: string)
    requires ReadChar(s).Some?
    ensures ReadChar(s + q) == Some((ReadChar(s).value.0, ReadChar(s).value.1 + q))
  {
    assert (s + q)[1..] == s[1..] + q;
    if s[0] == '\\' {
      assert (s + q)[2..] == s[2..] + q;
      if s[1] == 'u' {
        var t := s[2..];
        ReadHexExtends(t, q);
        assert (t + q)[4..] == t[4..] + q;
        if |t| >= 10 {
          assert (t + q)[6..] == t[6..] + q && (t + q)[10..] == t[10..] + q;
          if ReadHex4(t[6..]).Some? { ReadHexExtends(t[6..], q); }
        }
      }
    }
  }

  lemma {:induction false} ReadStringExtends(s: string, q: string)
    requires ReadString(s).Some?
    ensures ReadString(s + q) == Some((ReadString(s).value.0, ReadString(s).value.1 + q))
    decreases |s|
  {
    if s != "" && s[0] == '\"' {
      assert (s + q)[1..] == s[1..] + q;
    } else {
      ReadCharExtends(s, q);
      ReadStringExtends(ReadChar(s).value.1, q);
    }
  }

  lemma {:induction false} ReadExtends(s: string, q: string)
    requires Read(s).Some?
    ensures Read(s + q) == Some((Read(s).value.0, Read(s).value.1 + q))
    decreases |s|, 1
  {
    SkipExtends(s, q);
    var t := Skip(s);
    assert (t + q)[1..] == t[1..] + q;
    if t[0] == '\"' {
      ReadStringExtends(t[1..], q);
    } else {
      var u := Skip(t[1..]);
      SkipExtends(t[1..], q);
      assert (u + q)[1..] == u[1..] + q;
      if t[0] == '[' && u[0] != ']' { ReadItemsExtends(u, q); }
      if t[0] == '{' && u[0] != '}' { ReadMembersExtends(u, q); }
    }
  }

  lemma {:induction false} ReadItemsExtends(s: string, q: string)
    requires ReadItems(s).Some?
    ensures ReadItems(s + q) == Some((ReadItems(s).value.0, ReadItems(s).value.1 + q))
    decreases |s|, 2
  {
    ReadExtends(s, q);
    var t := Skip(Read(s).value.1);
    SkipExtends(Read(s).value.1, q);
    assert (t + q)[1..] == t[1..] + q;
    if t[0] == ',' { ReadItemsExtends(t[1..], q); }
  }

  lemma ReadKeyExtends(s: string, q: string)
    requires ReadKey(s).Some?
    ensures ReadKey(s + q) == Some((ReadKey(s).value.0, ReadKey(s).value.1 + q))
  {
    SkipExtends(s, q);
    var t := Skip(s);
    assert (t + q)[1..] == t[1..] + q;
    ReadStringExtends(t[1..], q);
    var rest := ReadString(t[1..]).value.1;
    SkipExtends(rest, q);
    assert (Skip(rest) + q)[1..] == Skip(rest)[1..] + q;
  }

  lemma {:induction false} ReadMembersExtends(s: string, q: string)
    requires ReadMembers(s).Some?
    ensures ReadMembers(s + q) == Some((ReadMembers(s).value.0, ReadMembers(s).value.1 + q))
    decreases |s|, 2
  {
    ReadKeyExtends(s, q);
    var rest := ReadKey(s).value.1;
    ReadExtends(rest, q);
    var t := Skip(Read(rest).value.1);
    SkipExtends(Read(rest).value.1, q);
    assert (t + q)[1..] == t[1..] + q;
    if t[0] == ',' { ReadMembersExtends(t[1..], q); }
  }

  /** No proper prefix of a printed document is a document. */
  lemma CutShortNeverParses(j: Json, k: nat)
    requires k < |Print(j)|
    ensures Parse(Print(j)[..k]) == None
  {
    var p, q := Print(j)[..k], Print(j)[k..];
    RoundTrip(j, "");
    assert Print(j) + "" == Print(j) && p + q == Print(j);
    if Read(p).Some? { ReadExtends(p, q); }
  }
}
