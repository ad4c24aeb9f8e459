/** The brace scanner of tool_call_recovery.py against a printer of JSON texts (RFC 8259, sections 2 to 7). */
module Scanner {
  import opened Wrappers

  // ---- brace depth outside string literals ----

  datatype Lex = Outside | InString | Escaped

  function Next(l: Lex, c: char): Lex {
    match l
    case Outside => if c == '"' then InString else Outside
    case InString => if c == '\\' then Escaped else if c == '"' then Outside else InString
    case Escaped => InString
  }

  /** Where a reader of `s` stands with respect to string literals. */
  function LexOf(s: string): Lex {
    if s == "" then Outside else Next(LexOf(s[..|s| - 1]), s[|s| - 1])
  }

  /** Opening minus closing braces of `s`, those inside string literals not counted. */
  function Depth(s: string): int {
    if s == "" then 0
    else
      var c := s[|s| - 1];
      var d := if LexOf(s[..|s| - 1]).Outside? then (if c == '{' then 1 else if c == '}' then -1 else 0) else 0;
      Depth(s[..|s| - 1]) + d
  }

  lemma Extend(s: string, i: nat)
    requires i < |s|
    ensures LexOf(s[..i + 1]) == Next(LexOf(s[..i]), s[i])
    ensures Depth(s[..i + 1]) == Depth(s[..i]) + if LexOf(s[..i]).Outside? && s[i] == '{' then 1
                                                 else if LexOf(s[..i]).Outside? && s[i] == '}' then -1 else 0
  {
    assert s[..i + 1][..i] == s[..i];
  }

  /** The braces opened at `start` are all closed for the first time at `end`; or never, or none is opened. */
  ghost predicate IsObjectEnd(text: string, start: nat, end: Option<nat>) {
    match end
    case Some(e) =>
      && start < e <= |text| && text[start] == '{'
      && Depth(text[start..e]) == 0 && forall k :: start < k < e ==> Depth(text[start..k]) > 0
    case None =>
      start < |text| && text[start] == '{' ==> forall k :: start < k <= |text| ==> Depth(text[start..k]) > 0
  }

  method BalancedObjectAt(text: string, start: nat) returns (end: Option<nat>)
    ensures IsObjectEnd(text, start, end)
  {
    hide Depth, LexOf;
    NothingRead();
    if start >= |text| || text[start] != '{' {
      return None;
    }
    ghost var tail := text[start..];
    assert forall k :: start <= k <= |text| ==> text[start..k] == tail[..k - start];
    assert tail[..0] == "";
    var depth, i, inStr, escape := 0, start, false, false;
    while i < |text|
      invariant start <= i <= |text|
      invariant depth == Depth(text[start..i])
      invariant LexOf(text[start..i]) == if escape then Escaped else if inStr then InString else Outside
      invariant escape ==> inStr
      invariant forall k :: start < k <= i ==> Depth(text[start..k]) > 0
    {
      Extend(tail, i - start);
      var c := text[i];
      if inStr {
        if escape {
          escape := false;
        } else if c == '\\' {
          escape := true;
        } else if c == '"' {
          inStr := false;
        }
      } else {
        if c == '"' {
          inStr := true;
        } else if c == '{' {
          depth := depth + 1;
        } else if c == '}' {
          depth := depth - 1;
          if depth == 0 {
            return Some(i + 1);
          }
        }
      }
      i := i + 1;
    }
    return None;
  }

  // ---- JSON texts ----

  /** One character of a string literal, as written. */
  datatype StrChar = Plain(c: char) | Escape(c: char) | Unicode(hex: string)

  /** A JSON text with its white space: numbers and the three names are tokens. */
  datatype Value =
    | Token(text: string)
    | Str(chars: seq<StrChar>)
    | List(ws: string, items: Items)
    | Object(ws: string, members: Members)

  datatype Items = NoItem | Item(before: string, value: Value, after: string, rest: Items)

  datatype Members =
    | NoMember
    | Member(before: string, key: seq<StrChar>, mid: string, gap: string, value: Value, after: string, rest: Members)

  predicate IsWs(s: string) {
    forall i :: 0 <= i < |s| ==> s[i] in " \t\n\r"
  }

  /** Covers the numbers of section 6 and true, false and null. */
  predicate IsToken(s: string) {
    s == "true" || s == "false" || s == "null" || forall i :: 0 <= i < |s| ==> s[i] in "0123456789+-.eE"
  }

  predicate IsHex(c: char) {
    '0' <= c <= '9' || 'a' <= c <= 'f' || 'A' <= c <= 'F'
  }

  predicate CharOk(c: StrChar) {
    match c
    case Plain(x) => x != '"' && x != '\\' && x as int >= 0x20
    case Escape(x) => x in "\"\\/bfnrt"
    case Unicode(hex) => |hex| == 4 && forall i :: 0 <= i < 4 ==> IsHex(hex[i])
  }

  predicate CharsOk(cs: seq<StrChar>) {
    forall i :: 0 <= i < |cs| ==> CharOk(cs[i])
  }

  predicate Ok(v: Value) {
    match v
    case Token(t) => IsToken(t)
    case Str(cs) => CharsOk(cs)
    case List(ws, items) => IsWs(ws) && ItemsOk(items)
    case Object(ws, members) => IsWs(ws) && MembersOk(members)
  }

  predicate ItemsOk(items: Items) {
    items.Item? ==> IsWs(items.before) && Ok(items.value) && IsWs(items.after) && ItemsOk(items.rest)
  }

  predicate MembersOk(ms: Members) {
    ms.Member? ==>
      && IsWs(ms.before) && CharsOk(ms.key) && IsWs(ms.mid) && IsWs(ms.gap) && Ok(ms.value) && IsWs(ms.after)
      && MembersOk(ms.rest)
  }

  function PrintChar(c: StrChar): string {
    match c
    case Plain(x) => [x]
    case Escape(x) => ['\\', x]
    case Unicode(hex) => "\\u" + hex
  }

  function PrintChars(cs: seq<StrChar>): string {
    if cs == [] then "" else PrintChars(cs[..|cs| - 1]) + PrintChar(cs[|cs| - 1])
  }

  function PrintString(cs: seq<StrChar>): string {
    "\"" + PrintChars(cs) + "\""
  }

  function Print(v: Value): string {
    match v
    case Token(t) => t
    case Str(cs) => PrintString(cs)
    case List(ws, items) => "[" + ws + PrintItems(items) + "]"
    case Object(ws, members) => "{" + (ws + PrintMembers(members)) + "}"
  }

  function PrintItems(items: Items): string {
    match items
    case NoItem => ""
    case Item(before, value, after, rest) =>
      before + Print(value) + after + (if rest.NoItem? then "" else ",") + PrintItems(rest)
  }

  function PrintMembers(ms: Members): string {
    match ms
    case NoMember => ""
    case Member(before, key, mid, gap, value, after, rest) =>
      before + PrintString(key) + mid + ":" + gap + Print(value) + after + (if rest.NoMember? then "" else ",")
      + PrintMembers(rest)
  }

  // ---- the scanner reads what the printer wrote ----

  /** Reading `s` leaves the reader where it was, outside string literals, at the same depth, and never
      takes it below. */
  ghost predicate Neutral(s: string) {
    LexOf(s).Outside? && Depth(s) == 0 && forall k :: 0 <= k <= |s| ==> Depth(s[..k]) >= 0
  }

  /** A reader outside string literals reads on as from the start. */
  lemma {:induction false} ReadOn(a: string, b: string)
    requires LexOf(a).Outside?
    ensures LexOf(a + b) == LexOf(b) && Depth(a + b) == Depth(a) + Depth(b)
  {
    if b == "" {
      assert a + b == a;
    } else {
      assert (a + b)[..|a + b| - 1] == a + b[..|b| - 1];
      ReadOn(a, b[..|b| - 1]);
    }
  }

  lemma Both(a: string, b: string)
    requires Neutral(a) && Neutral(b)
    ensures Neutral(a + b)
  {
    var s := a + b;
    ReadOn(a, b);
    forall k | 0 <= k <= |s| ensures Depth(s[..k]) >= 0 {
      if k <= |a| {
        assert s[..k] == a[..k];
      } else {
        assert s[..k] == a + b[..k - |a|];
        ReadOn(a, b[..k - |a|]);
      }
    }
  }

  /** Text without quotes and braces. */
  lemma {:induction false} FlatIsNeutral(s: string)
    requires forall i :: 0 <= i < |s| ==> s[i] != '"' && s[i] != '{' && s[i] != '}'
    ensures Neutral(s)
  {
    if s == "" {
      assert forall k :: 0 <= k <= 0 ==> s[..k] == "";
    } else {
      var front := s[..|s| - 1];
      FlatIsNeutral(front);
      forall k | 0 <= k <= |s| ensures Depth(s[..k]) >= 0 {
        if k < |s| {
          assert s[..k] == front[..k];
        } else {
          assert s[..k] == s;
        }
      }
    }
  }

  lemma NothingRead()
    ensures LexOf("") == Outside && Depth("") == 0
  {
  }

  /** Inside a literal every prefix has depth 0. */
  ghost predicate Within(s: string) {
    LexOf(s).InString? && forall k :: 0 <= k <= |s| ==> Depth(s[..k]) == 0
  }

  /** A character that is read inside a string literal changes no depth. */
  lemma OneMore(s: string, c: char)
    requires forall k :: 0 <= k <= |s| ==> Depth(s[..k]) == 0
    requires !LexOf(s).Outside? || (c != '{' && c != '}')
    ensures forall k :: 0 <= k <= |s| + 1 ==> Depth((s + [c])[..k]) == 0
    ensures LexOf(s + [c]) == Next(LexOf(s), c)
  {
    var t := s + [c];
    assert s[..|s|] == s && t[..|s|] == s;
    forall k | 0 <= k <= |t| ensures Depth(t[..k]) == 0 {
      if k <= |s| {
        assert t[..k] == s[..k];
      } else {
        assert t[..k] == t;
      }
    }
  }

  lemma CharStaysWithin(s: string, c: StrChar)
    requires Within(s) && CharOk(c)
    ensures Within(s + PrintChar(c))
  {
    hide Depth, LexOf;
    match c
    case Plain(x) => OneMore(s, x);
    case Escape(x) =>
      OneMore(s, '\\');
      OneMore(s + ['\\'], x);
      assert s + PrintChar(c) == s + ['\\'] + [x];
    case Unicode(hex) =>
      OneMore(s, '\\');
      OneMore(s + ['\\'], 'u');
      HexStaysWithin(s + ['\\'] + ['u'], hex);
      assert s + PrintChar(c) == s + ['\\'] + ['u'] + hex;
  }

  lemma {:induction false} HexStaysWithin(s: string, hex: string)
    requires Within(s) && forall i :: 0 <= i < |hex| ==> IsHex(hex[i])
    ensures Within(s + hex)
  {
    if hex == "" {
      assert s + hex == s;
    } else {
      var front := hex[..|hex| - 1];
      HexStaysWithin(s, front);
      OneMore(s + front, hex[|hex| - 1]);
      assert s + hex == s + front + [hex[|hex| - 1]];
    }
  }

  lemma {:induction false} CharsStayWithin(cs: seq<StrChar>)
    requires CharsOk(cs)
    ensures Within("\"" + PrintChars(cs))
  {
    hide Depth, LexOf;
    if cs == [] {
      NothingRead();
      OneMore("", '"');
      assert "" + ['"'] == "\"" + PrintChars(cs);
    } else {
      var front := cs[..|cs| - 1];
      CharsStayWithin(front);
      CharStaysWithin("\"" + PrintChars(front), cs[|cs| - 1]);
      assert "\"" + PrintChars(cs) == "\"" + PrintChars(front) + PrintChar(cs[|cs| - 1]);
    }
  }

  lemma StringIsNeutral(cs: seq<StrChar>)
    requires CharsOk(cs)
    ensures Neutral(PrintString(cs))
  {
    CharsStayWithin(cs);
    OneMore("\"" + PrintChars(cs), '"');
    assert PrintString(cs) == "\"" + PrintChars(cs) + ['"'];
    assert PrintString(cs)[..|PrintString(cs)|] == PrintString(cs);
    hide Depth, LexOf, PrintChars;
  }

  /** Inside its braces a neutral text is read at depth one. */
  lemma Braced(s: string)
    requires Neutral(s)
    ensures var t := "{" + s + "}";
            Neutral(t) && forall k :: 0 < k < |t| ==> Depth(t[..k]) > 0
  {
    var t := "{" + s + "}";
    assert "{"[..0] == "" && LexOf("{") == Outside && Depth("{") == 1;
    ReadOn("{", s);
    assert t[..|t| - 1] == "{" + s;
    forall k | 0 < k < |t| ensures Depth(t[..k]) > 0 {
      assert t[..k] == "{" + s[..k - 1];
      ReadOn("{", s[..k - 1]);
    }
    assert t[..0] == "" && t[..|t|] == t;
  }

  lemma WsIsNeutral(s: string)
    requires IsWs(s)
    ensures Neutral(s)
  {
    FlatIsNeutral(s);
  }

  lemma MarksAreNeutral()
    ensures Neutral("") && Neutral(",") && Neutral(":") && Neutral("[") && Neutral("]")
  {
    FlatIsNeutral("");
    FlatIsNeutral(",");
    FlatIsNeutral(":");
    FlatIsNeutral("[");
    FlatIsNeutral("]");
  }

  /** Every printed value is neutral. */
  lemma {:induction false} PrintIsNeutral(v: Value)
    requires Ok(v)
    ensures Neutral(Print(v))
    decreases v
  {
    hide Neutral;
    match v
    case Token(t) => FlatIsNeutral(t);
    case Str(cs) => StringIsNeutral(cs);
    case List(ws, items) =>
      MarksAreNeutral();
      WsIsNeutral(ws);
      PrintItemsIsNeutral(items);
      Both("[", ws);
      Both("[" + ws, PrintItems(items));
      Both("[" + ws + PrintItems(items), "]");
    case Object(ws, members) =>
      WsIsNeutral(ws);
      PrintMembersIsNeutral(members);
      Both(ws, PrintMembers(members));
      Braced(ws + PrintMembers(members));
  }

  lemma {:induction false} PrintItemsIsNeutral(items: Items)
    requires ItemsOk(items)
    ensures Neutral(PrintItems(items))
    decreases items
  {
    hide Neutral;
    MarksAreNeutral();
    match items
    case NoItem =>
    case Item(before, value, after, rest) =>
      WsIsNeutral(before);
      PrintIsNeutral(value);
      WsIsNeutral(after);
      PrintItemsIsNeutral(rest);
      var comma := if rest.NoItem? then "" else ",";
      Both(before, Print(value));
      Both(before + Print(value), after);
      Both(before + Print(value) + after, comma);
      Both(before + Print(value) + after + comma, PrintItems(rest));
  }

  lemma {:induction false} PrintMembersIsNeutral(ms: Members)
    requires MembersOk(ms)
    ensures Neutral(PrintMembers(ms))
    decreases ms
  {
    hide Neutral;
    MarksAreNeutral();
    match ms
    case NoMember =>
    case Member(before, key, mid, gap, value, after, rest) =>
      WsIsNeutral(before);
      StringIsNeutral(key);
      WsIsNeutral(mid);
      WsIsNeutral(gap);
      PrintIsNeutral(value);
      WsIsNeutral(after);
      PrintMembersIsNeutral(rest);
      var comma := if rest.NoMember? then "" else ",";
      var head := before + PrintString(key) + mid + ":" + gap;
      Both(before, PrintString(key));
      Both(before + PrintString(key), mid);
      Both(before + PrintString(key) + mid, ":");
      Both(before + PrintString(key) + mid + ":", gap);
      Both(head, Print(value));
      Both(head + Print(value), after);
      Both(head + Print(value) + after, comma);
      Both(head + Print(value) + after + comma, PrintMembers(rest));
  }

  /** Braces that open at once and close only at the end. */
  ghost predicate OneObject(s: string) {
    s != "" && s[0] == '{' && Depth(s) == 0 && forall k :: 0 < k < |s| ==> Depth(s[..k]) > 0
  }

  lemma PrintIsOneObject(v: Value)
    requires v.Object? && Ok(v)
    ensures OneObject(Print(v))
  {
    WsIsNeutral(v.ws);
    PrintMembersIsNeutral(v.members);
    Both(v.ws, PrintMembers(v.members));
    Braced(v.ws + PrintMembers(v.members));
  }

  /** There is only one first end. */
  lemma FirstEnd(before: string, obj: string, rest: string, end: Option<nat>)
    requires OneObject(obj) && IsObjectEnd(before + obj + rest, |before|, end)
    ensures end == Some(|before| + |obj|)
  {
    hide Depth;
    var text, n := before + obj + rest, |before|;
    assert text[n] == '{' && text[n..n + |obj|] == obj;
    forall k | n < k < n + |obj| ensures Depth(text[n..k]) > 0 {
      assert text[n..k] == obj[..k - n];
    }
  }

  /** The scanner, started at a printed object with any text before and after it, stops exactly at the
      object's end. */
  lemma ScannerFindsPrintedObject(before: string, v: Value, rest: string, end: Option<nat>)
    requires v.Object? && Ok(v)
    requires IsObjectEnd(before + Print(v) + rest, |before|, end)
    ensures end == Some(|before| + |Print(v)|)
  {
    hide Ok, Print, OneObject, IsObjectEnd;
    PrintIsOneObject(v);
    FirstEnd(before, Print(v), rest, end);
  }

  // ---- the span of a whole call ----

  /** `end` is past the closing brace that follows `from`, white space allowed in between. */
  ghost predicate IsOuterEnd(text: string, from: nat, end: Option<nat>) {
    match end
    case Some(e) => from < e <= |text| && text[e - 1] == '}' && IsWs(text[from..e - 1])
    case None => forall i :: from <= i < |text| && text[i] == '}' ==> !IsWs(text[from..i])
  }

  method OuterEnd(text: string, argsEnd: nat) returns (end: Option<nat>)
    requires argsEnd <= |text|
    ensures IsOuterEnd(text, argsEnd, end)
  {
    var outerEnd := argsEnd;
    while outerEnd < |text| && text[outerEnd] in " \t\r\n"
      invariant argsEnd <= outerEnd <= |text| && IsWs(text[argsEnd..outerEnd])
    {
      assert text[argsEnd..outerEnd + 1] == text[argsEnd..outerEnd] + [text[outerEnd]];
      outerEnd := outerEnd + 1;
    }
    if outerEnd >= |text| || text[outerEnd] != '}' {
      NoBraceInWs(text, argsEnd, outerEnd);
      forall i | argsEnd <= i < |text| && text[i] == '}' ensures !IsWs(text[argsEnd..i]) {
        assert text[argsEnd..i][outerEnd - argsEnd] == text[outerEnd];
      }
      return None;
    }
    return Some(outerEnd + 1);
  }

  /** A printed call up to its arguments: a first member, and the second member's key. */
  function CallHead(call: Value): string
    requires call.Object? && call.members.Member? && call.members.rest.Member?
  {
    var m, a := call.members, call.members.rest;
    "{" + call.ws + (m.before + PrintString(m.key) + m.mid + ":" + m.gap + Print(m.value) + m.after + ",")
    + a.before + PrintString(a.key) + a.mid + ":" + a.gap
  }

  /** For a printed call of two members whose second is an object, the scan of that object and then for the
      closing brace finds the end of the call: the span stripped from the text is the call, no more and no
      less. */
  lemma SpanIsTheCall(before: string, call: Value, rest: string, argsEnd: Option<nat>, end: Option<nat>)
    requires call.Object? && Ok(call) && call.members.Member? && call.members.rest.Member?
    requires call.members.rest.rest.NoMember? && call.members.rest.value.Object?
    requires IsObjectEnd(before + Print(call) + rest, |before| + |CallHead(call)|, argsEnd)
    requires argsEnd.Some? ==> IsOuterEnd(before + Print(call) + rest, argsEnd.value, end)
    ensures argsEnd.Some? && end == Some(|before| + |Print(call)|)
  {
    hide CallHead, IsObjectEnd, IsOuterEnd, OneObject, Ok, Print, IsWs;
    var a := call.members.rest;
    ArgumentsOk(call);
    CallForm(call);
    PrintIsOneObject(a.value);
    SpanOfForm(before, CallHead(call), Print(a.value), a.after, rest, argsEnd, end);
  }

  lemma ArgumentsOk(call: Value)
    requires call.Object? && Ok(call) && call.members.Member? && call.members.rest.Member?
    ensures Ok(call.members.rest.value) && IsWs(call.members.rest.after)
  {
    assert MembersOk(call.members) && MembersOk(call.members.rest);
    hide IsWs;
  }

  lemma SpanOfForm(before: string, head: string, args: string, after: string, rest: string,
                   argsEnd: Option<nat>, end: Option<nat>)
    requires OneObject(args) && IsWs(after)
    requires var text := before + (head + args + after + "}") + rest;
             IsObjectEnd(text, |before| + |head|, argsEnd) && (argsEnd.Some? ==> IsOuterEnd(text, argsEnd.value, end))
    ensures argsEnd.Some? && end == Some(|before| + |head + args + after + "}"|)
  {
    hide IsObjectEnd, IsOuterEnd, OneObject, IsWs;
    Regroup(before, head, args, after, "}", rest);
    FirstEnd(before + head, args, after + "}" + rest, argsEnd);
    BraceAfterWs(before + head + args, after, rest);
    OnlyOuterEnd(before + (head + args + after + "}") + rest, argsEnd.value, |before + head + args| + |after| + 1, end);
  }

  lemma Regroup(a: string, b: string, c: string, d: string, e: string, f: string)
    ensures a + (b + c + d + e) + f == a + b + c + d + e + f == (a + b) + c + (d + e + f)
  {
  }

  lemma RegroupCall(o: string, ws: string, m: string, front: string, v: string, after: string, c: string)
    ensures o + (ws + (m + (front + v + after))) + c == (o + ws + m + front) + v + after + c
  {
  }

  /** A printed call is its head, its arguments and its closing brace. */
  lemma CallForm(call: Value)
    requires call.Object? && call.members.Member? && call.members.rest.Member? && call.members.rest.rest.NoMember?
    ensures var a := call.members.rest;
            Print(call) == CallHead(call) + Print(a.value) + a.after + "}"
  {
    var m, a := call.members, call.members.rest;
    var first := m.before + PrintString(m.key) + m.mid + ":" + m.gap + Print(m.value) + m.after + ",";
    var front := a.before + PrintString(a.key) + a.mid + ":" + a.gap;
    assert PrintMembers(a) == front + Print(a.value) + a.after;
    assert PrintMembers(m) == first + PrintMembers(a);
    assert CallHead(call) == "{" + call.ws + first + front;
    hide PrintString, CallHead, PrintMembers;
    RegroupCall("{", call.ws, first, front, Print(a.value), a.after, "}");
  }

  lemma NoBraceInWs(text: string, from: nat, to: nat)
    requires from <= to <= |text| && IsWs(text[from..to])
    ensures forall i :: from <= i < to ==> text[i] != '}'
  {
    forall i | from <= i < to ensures text[i] != '}' {
      assert text[i] == text[from..to][i - from];
    }
  }

  lemma OnlyOuterEnd(text: string, from: nat, e: nat, end: Option<nat>)
    requires IsOuterEnd(text, from, Some(e)) && IsOuterEnd(text, from, end)
    ensures end == Some(e)
  {
    NoBraceInWs(text, from, e - 1);
    if end.Some? {
      NoBraceInWs(text, from, end.value - 1);
    }
    hide IsWs;
  }

  lemma BraceAfterWs(upTo: string, ws: string, rest: string)
    requires IsWs(ws)
    ensures IsOuterEnd(upTo + ws + "}" + rest, |upTo|, Some(|upTo| + |ws| + 1))
  {
    assert (upTo + ws + "}" + rest)[|upTo|..|upTo| + |ws|] == ws;
  }
}
