/** What tool_call_recovery.py takes out of a message once its candidates are found. */
module Recovery {
  import opened Wrappers
  import opened Text
  import opened Tidy
  import Reasoning
  import S = Scanner

  datatype Span = Span(start: nat, end: nat)

  /** `s[:start] + s[end:]`, whose slices stop at the end of `s`. */
  function Cut(s: string, p: Span): string {
    (if p.start <= |s| then s[..p.start] else s) + (if p.end <= |s| then s[p.end..] else "")
  }

  /** The spans cut from last to first, each at its original indices. */
  function Deleted(s: string, spans: seq<Span>): string {
    if spans == [] then s else Cut(Deleted(s, spans[1..]), spans[0])
  }

  /** The reverse loop over the accepted spans, which come in ascending order. */
  method StripSpans(segment: string, spans: seq<Span>) returns (r: string)
    ensures r == Deleted(segment, spans)
  {
    r := segment;
    for i := |spans| downto 0
      invariant r == Deleted(segment, spans[i..])
    {
      assert spans[i..][1..] == spans[i + 1..];
      r := Cut(r, spans[i]);
    }
    assert spans[0..] == spans;
  }

  /** Candidates as they are found: inside the text, not empty, one start after the other. */
  ghost predicate Ordered(s: string, spans: seq<Span>) {
    && (forall i :: 0 <= i < |spans| ==> spans[i].start < spans[i].end <= |s|)
    && (forall i, j :: 0 <= i < j < |spans| ==> spans[i].start < spans[j].start)
  }

  predicate Covered(spans: seq<Span>, i: nat) {
    exists k :: 0 <= k < |spans| && spans[k].start <= i < spans[k].end
  }

  /** The characters from `i` on that lie in no span. */
  function Uncovered(s: string, spans: seq<Span>, i: nat): string
    decreases |s| - i
  {
    if i >= |s| then "" else (if Covered(spans, i) then "" else [s[i]]) + Uncovered(s, spans, i + 1)
  }

  /** No span reaches into the next; or everything that follows the first one that does is covered, so there
      is nothing left to cut by mistake. */
  predicate Harmless(s: string, spans: seq<Span>) {
    || |spans| <= 1
    || (if spans[0].end <= spans[1].start then Harmless(s, spans[1..])
        else forall i :: spans[0].end <= i < |s| ==> Covered(spans, i))
  }

  lemma {:induction false} SkipUncovered(s: string, spans: seq<Span>, i: nat, j: nat)
    requires i <= j <= |s| && forall k :: i <= k < j ==> !Covered(spans, k)
    ensures Uncovered(s, spans, i) == s[i..j] + Uncovered(s, spans, j)
    decreases j - i
  {
    if i < j {
      var rest := Uncovered(s, spans, i + 1);
      assert Uncovered(s, spans, i) == [s[i]] + rest;
      SkipUncovered(s, spans, i + 1, j);
      hide Covered, Uncovered;
      assert s[i..j] == [s[i]] + s[i + 1..j];
    } else {
      assert s[i..j] == "";
    }
  }

  lemma {:induction false} SkipCovered(s: string, spans: seq<Span>, i: nat, j: nat)
    requires i <= j <= |s| && forall k :: i <= k < j ==> Covered(spans, k)
    ensures Uncovered(s, spans, i) == Uncovered(s, spans, j)
    decreases j - i
  {
    if i < j {
      SkipCovered(s, spans, i + 1, j);
    }
  }

  lemma {:induction false} SameCover(s: string, a: seq<Span>, b: seq<Span>, i: nat)
    requires forall k :: i <= k < |s| ==> (Covered(a, k) <==> Covered(b, k))
    ensures Uncovered(s, a, i) == Uncovered(s, b, i)
    decreases |s| - i
  {
    if i < |s| {
      SameCover(s, a, b, i + 1);
    }
  }

  lemma {:induction false} UncoveredLength(s: string, spans: seq<Span>, i: nat, j: nat)
    requires i <= j <= |s|
    ensures |Uncovered(s, spans, j)| <= |Uncovered(s, spans, i)| <= (j - i) + |Uncovered(s, spans, j)|
    decreases j - i
  {
    if i < j {
      UncoveredLength(s, spans, i + 1, j);
    }
  }

  lemma {:induction false} NothingUncovered(s: string, spans: seq<Span>, i: nat)
    ensures Uncovered(s, spans, i) == "" <==> forall k :: i <= k < |s| ==> Covered(spans, k)
    decreases |s| - i
  {
    if i < |s| {
      NothingUncovered(s, spans, i + 1);
    }
  }

  /** What follows the first span in the result. */
  function Tail(s: string, spans: seq<Span>): string
    requires spans != []
  {
    var e := spans[0].end;
    if |spans| == 1 then (if e <= |s| then s[e..] else "")
    else
      var t, next := Tail(s, spans[1..]), spans[1].start;
      if e <= next <= |s| then s[e..next] + t
      else if 0 <= e - next <= |t| then t[e - next..]
      else ""
  }

  lemma {:induction false} DeletedIsHeadAndTail(s: string, spans: seq<Span>)
    requires spans != [] && Ordered(s, spans)
    ensures Deleted(s, spans) == s[..spans[0].start] + Tail(s, spans)
  {
    if |spans| == 1 {
      assert Deleted(s, spans[1..]) == s;
    } else {
      DeletedIsHeadAndTail(s, spans[1..]);
      CutHeadAndTail(s, spans[0], spans[1].start, Tail(s, spans[1..]));
    }
  }

  lemma CutHeadAndTail(s: string, p: Span, next: nat, t: string)
    requires p.start < next <= |s| && p.start < p.end
    ensures Cut(s[..next] + t, p)
         == s[..p.start] + if p.end <= next then s[p.end..next] + t
                           else if p.end - next <= |t| then t[p.end - next..] else ""
  {
  }

  lemma RestCovers(s: string, spans: seq<Span>, i: nat)
    requires spans != [] && i >= spans[0].end
    ensures Covered(spans, i) <==> Covered(spans[1..], i)
  {
    if Covered(spans, i) {
      var k :| 0 <= k < |spans| && spans[k].start <= i < spans[k].end;
      assert spans[1..][k - 1] == spans[k];
    }
  }

  /** Only the first span matters before the second starts. */
  lemma FirstCovers(s: string, spans: seq<Span>, i: nat)
    requires spans != [] && Ordered(s, spans) && (|spans| > 1 ==> i < spans[1].start)
    ensures Covered(spans, i) <==> spans[0].start <= i < spans[0].end
  {
  }

  /** The kept text after the first span, in terms of the rest. */
  lemma KeptAfterFirst(s: string, spans: seq<Span>)
    requires |spans| > 1 && Ordered(s, spans)
    ensures var e, next, rest := spans[0].end, spans[1].start, spans[1..];
            && Ordered(s, rest)
            && Uncovered(s, spans, e) == Uncovered(s, rest, e)
            && Uncovered(s, rest, next) == Uncovered(s, rest, rest[0].end)
            && (e <= next ==> Uncovered(s, spans, e) == s[e..next] + Uncovered(s, rest, rest[0].end))
  {
    var e, next, rest := spans[0].end, spans[1].start, spans[1..];
    forall i | e <= i < |s| ensures Covered(spans, i) <==> Covered(rest, i) {
      RestCovers(s, spans, i);
    }
    SameCover(s, spans, rest, e);
    SkipCovered(s, rest, next, rest[0].end);
    if e <= next {
      forall i | e <= i < next ensures !Covered(rest, i) {
        FirstCovers(s, rest, i);
      }
      SkipUncovered(s, rest, e, next);
    }
  }

  /** Past the first span the result is never longer than the text that should be kept, and it is that text
      exactly if the overlaps are harmless. */
  lemma {:induction false} TailIsKept(s: string, spans: seq<Span>)
    requires spans != [] && Ordered(s, spans)
    ensures var kept := Uncovered(s, spans, spans[0].end);
            |Tail(s, spans)| <= |kept| && (Tail(s, spans) == kept <==> Harmless(s, spans))
  {
    var e := spans[0].end;
    if |spans| == 1 {
      forall i | e <= i < |s| ensures !Covered(spans, i) {
        FirstCovers(s, spans, i);
      }
      SkipUncovered(s, spans, e, |s|);
    } else {
      var rest, next := spans[1..], spans[1].start;
      KeptAfterFirst(s, spans);
      TailIsKept(s, rest);
      hide Uncovered;
      if e <= next {
        SamePrefix(s[e..next], Tail(s, rest), Uncovered(s, rest, rest[0].end));
      } else {
        OverlapShortens(s, spans);
        NothingUncovered(s, spans, e);
      }
    }
  }

  lemma SamePrefix(a: string, x: string, y: string)
    ensures a + x == a + y <==> x == y
  {
    assert (a + x)[|a|..] == x && (a + y)[|a|..] == y;
  }

  /** Of the text kept after the second span's start, the first span's end leaves more than the cut does. */
  lemma OverlapShortens(s: string, spans: seq<Span>)
    requires |spans| > 1 && Ordered(s, spans) && spans[1].start < spans[0].end
    ensures var e, rest := spans[0].end, spans[1..];
            |Uncovered(s, rest, rest[0].end)| < (e - spans[1].start) + |Uncovered(s, spans, e)|
  {
    var e, rest, next := spans[0].end, spans[1..], spans[1].start;
    KeptAfterFirst(s, spans);
    assert Covered(rest, next) by {
      assert rest[0].start <= next < rest[0].end;
    }
    SkipCovered(s, rest, next, next + 1);
    UncoveredLength(s, rest, next + 1, e);
    hide Uncovered, Covered, Ordered;
  }

  /** Cutting the accepted spans in reverse, at their original indices, leaves exactly the text that lies in
      no span if and only if the overlaps are harmless; so always when no span overlaps the next. */
  lemma StripIsRight(s: string, spans: seq<Span>)
    requires Ordered(s, spans)
    ensures Deleted(s, spans) == Uncovered(s, spans, 0) <==> Harmless(s, spans)
  {
    if spans == [] {
      SkipUncovered(s, spans, 0, |s|);
    } else {
      DeletedIsHeadAndTail(s, spans);
      TailIsKept(s, spans);
      var p := spans[0];
      forall i | 0 <= i < p.start ensures !Covered(spans, i) {
        FirstCovers(s, spans, i);
      }
      SkipUncovered(s, spans, 0, p.start);
      SkipCovered(s, spans, p.start, p.end);
      hide Deleted, Uncovered, Covered, Harmless, Tail;
      assert s[0..p.start] == s[..p.start];
      SamePrefix(s[..p.start], Tail(s, spans), Uncovered(s, spans, p.end));
    }
  }

  ghost predicate Apart(spans: seq<Span>) {
    forall i :: 0 <= i < |spans| - 1 ==> spans[i].end <= spans[i + 1].start
  }

  function TotalLength(spans: seq<Span>): int {
    if spans == [] then 0 else spans[0].end - spans[0].start + TotalLength(spans[1..])
  }

  /** The text between spans, from `from` to the end. */
  function Gaps(s: string, spans: seq<Span>, from: nat): string {
    if spans == [] then (if from <= |s| then s[from..] else "")
    else (if from <= spans[0].start <= |s| then s[from..spans[0].start] else "") + Gaps(s, spans[1..], spans[0].end)
  }

  /** For spans that do not overlap the result is the gaps from left to right, shorter than the text by
      exactly the spans' lengths. */
  lemma {:induction false} StripLeavesGaps(s: string, spans: seq<Span>)
    requires Ordered(s, spans) && Apart(spans)
    ensures Deleted(s, spans) == Gaps(s, spans, 0)
    ensures |Deleted(s, spans)| == |s| - TotalLength(spans)
    ensures Deleted(s, spans) == Uncovered(s, spans, 0)
  {
    ApartIsHarmless(s, spans);
    StripIsRight(s, spans);
    if spans != [] {
      DeletedIsHeadAndTail(s, spans);
      TailIsGaps(s, spans);
      hide Deleted, Uncovered;
    }
  }

  lemma ApartRest(spans: seq<Span>)
    requires spans != [] && Apart(spans)
    ensures Apart(spans[1..])
  {
    forall i | 0 <= i < |spans[1..]| - 1 ensures spans[1..][i].end <= spans[1..][i + 1].start {
      assert spans[i + 1].end <= spans[i + 2].start;
    }
  }

  lemma {:induction false} ApartIsHarmless(s: string, spans: seq<Span>)
    requires Apart(spans)
    ensures Harmless(s, spans)
  {
    if |spans| > 1 {
      ApartRest(spans);
      ApartIsHarmless(s, spans[1..]);
    }
  }

  lemma {:induction false} TailIsGaps(s: string, spans: seq<Span>)
    requires spans != [] && Ordered(s, spans) && Apart(spans)
    ensures Tail(s, spans) == Gaps(s, spans[1..], spans[0].end)
    ensures |Tail(s, spans)| == |s| - spans[0].start - TotalLength(spans)
  {
    if |spans| == 1 {
      assert spans[1..] == [];
    } else {
      assert Ordered(s, spans[1..]);
      ApartRest(spans);
      TailIsGaps(s, spans[1..]);
    }
  }

  // ---- a call nested in another call's arguments ----

  /** What is left of `s` without its first `n` characters. */
  function Drop(s: string, n: nat): string {
    if n <= |s| then s[n..] else ""
  }

  /** Two nested spans, by the texts around them. */
  function Nested(before: string, front: string, inner: string, back: string): seq<Span> {
    var n := |before|;
    [Span(n, n + |front + inner + back|), Span(n + |front|, n + |front + inner|)]
  }

  /** Of a call and a call inside it, cutting both eats as much of the following text as the inner one is long. */
  lemma NestedSpansEatText(before: string, front: string, inner: string, back: string, after: string)
    requires front != "" && inner != ""
    ensures var s, spans := before + (front + inner + back) + after, Nested(before, front, inner, back);
            && Ordered(s, spans)
            && Deleted(s, spans) == before + Drop(after, |inner|)
            && Uncovered(s, spans, 0) == before + after
  {
    var s, spans := before + (front + inner + back) + after, Nested(before, front, inner, back);
    NestedCuts(before, front, inner, back, after);
    NestedKeeps(before, front, inner, back, after);
    assert spans[1..] == [spans[1]] && spans[1..][1..] == [];
    assert Deleted(s, []) == s && Deleted(s, spans[1..]) == Cut(s, spans[1]);
    hide Cut, Uncovered, Drop;
  }

  lemma NestedKeeps(before: string, front: string, inner: string, back: string, after: string)
    ensures Uncovered(before + (front + inner + back) + after, Nested(before, front, inner, back), 0) == before + after
  {
    var s, n, spans := before + (front + inner + back) + after, |before|, Nested(before, front, inner, back);
    var end := n + |front + inner + back|;
    forall i: nat ensures Covered(spans, i) <==> n <= i < end {
      assert n <= i < end ==> spans[0].start <= i < spans[0].end;
    }
    hide Covered;
    SkipUncovered(s, spans, 0, n);
    SkipCovered(s, spans, n, end);
    SkipUncovered(s, spans, end, |s|);
    assert Uncovered(s, spans, |s|) == "" && s[0..n] == before && s[end..|s|] == after;
  }

  lemma NestedCuts(before: string, front: string, inner: string, back: string, after: string)
    ensures var s, spans := before + (front + inner + back) + after, Nested(before, front, inner, back);
            Cut(Cut(s, spans[1]), spans[0]) == before + Drop(after, |inner|)
  {
    var s, spans := before + (front + inner + back) + after, Nested(before, front, inner, back);
    assert s[..spans[1].start] == before + front && s[spans[1].end..] == back + after;
    var once := before + front + back + after;
    assert Cut(s, spans[1]) == once;
    assert once[..|before|] == before;
    var end := spans[0].end;
    assert end <= |once| ==> once[end..] == after[|inner|..];
  }

  /** Names of this many plain characters. */
  function Chars(s: string): seq<S.StrChar> {
    seq(|s|, i requires 0 <= i < |s| => S.Plain(s[i]))
  }

  lemma {:induction false} CharsPrint(s: string)
    ensures S.PrintString(Chars(s)) == "\"" + s + "\""
  {
    PlainPrints(s);
  }

  lemma {:induction false} PlainPrints(s: string)
    ensures S.PrintChars(Chars(s)) == s
  {
    if s != "" {
      var front := s[..|s| - 1];
      PlainPrints(front);
      assert Chars(s)[..|s| - 1] == Chars(front);
    }
  }

  /** `{"name":"a","arguments":…}` */
  function CallOf(arguments: S.Value): S.Value {
    S.Object("", S.Member("", Chars("name"), "", "", S.Str(Chars("a")), "",
                          S.Member("", Chars("arguments"), "", "", arguments, "", S.NoMember)))
  }

  const EMPTY := S.Object("", S.NoMember)

  /** `{"x":{"y":{}},"z":…}` */
  function ArgumentsOf(z: S.Value): S.Value {
    S.Object("", S.Member("", Chars("x"), "", "", S.Object("", S.Member("", Chars("y"), "", "", EMPTY, "",
        S.NoMember)), "",
                          S.Member("", Chars("z"), "", "", z, "", S.NoMember)))
  }

  /** White space that is not there. */
  lemma GlueHead(name: string, value: string, arguments: string)
    ensures "{" + "" + ("" + name + "" + ":" + "" + value + "" + ",") + "" + arguments + "" + ":" + ""
         == "{" + name + ":" + value + "," + arguments + ":"
  {
  }

  lemma GlueMember(key: string, value: string, comma: string, rest: string)
    ensures "" + key + "" + ":" + "" + value + "" + comma + rest == key + ":" + value + comma + rest
  {
  }

  lemma GlueCall(head: string, arguments: string)
    ensures head + arguments + "" + "}" == head + arguments + "}"
  {
  }

  lemma CallHeadIs(arguments: S.Value)
    ensures S.CallHead(CallOf(arguments)) == CALL_HEAD
  {
    var name, a, args := S.PrintString(Chars("name")), S.PrintString(Chars("a")), S.PrintString(Chars("arguments"));
    assert S.Print(S.Str(Chars("a"))) == a;
    CharsPrint("name");
    CharsPrint("a");
    CharsPrint("arguments");
    hide S.PrintString, S.Print, Chars;
    GlueHead(name, a, args);
    HeadLiteral(name, a, args);
  }

  lemma HeadLiteral(name: string, a: string, args: string)
    requires name == "\"" + "name" + "\"" && a == "\"" + "a" + "\"" && args == "\"" + "arguments" + "\""
    ensures "{" + name + ":" + a + "," + args + ":" == CALL_HEAD
  {
    assert "{" + name + ":" == "{\"name\":";
    assert "{\"name\":" + a + "," == "{\"name\":\"a\",";
    assert args + ":" == "\"arguments\":";
  }

  lemma CallPrints(arguments: S.Value)
    ensures S.Print(CallOf(arguments)) == CALL_HEAD + S.Print(arguments) + "}"
  {
    S.CallForm(CallOf(arguments));
    CallHeadIs(arguments);
    hide S.CallHead, S.Print, Chars;
    GlueCall(CALL_HEAD, S.Print(arguments));
  }

  lemma ArgumentsPrint(z: S.Value)
    ensures S.Print(ArgumentsOf(z)) == "{\"x\":{\"y\":{}},\"z\":" + S.Print(z) + "}"
  {
    var y := S.Object("", S.Member("", Chars("y"), "", "", EMPTY, "", S.NoMember));
    var last := S.Member("", Chars("z"), "", "", z, "", S.NoMember);
    var first := S.Member("", Chars("x"), "", "", y, "", last);
    EmptyPrints();
    MemberPrints("y", EMPTY, S.NoMember);
    MemberPrints("z", z, S.NoMember);
    MemberPrints("x", y, last);
    ObjectPrints(y.members);
    ObjectPrints(first);
    hide S.Print, S.PrintMembers, S.PrintString, Chars;
    GlueArguments(S.Print(z));
  }

  lemma GlueArguments(z: string)
    ensures Named("y") + "{}" + "" + "" == "\"y\":{}" && Named("z") + z + "" + "" == "\"z\":" + z
    ensures "{" + "\"y\":{}" + "}" == "{\"y\":{}}"
    ensures "{" + (Named("x") + "{\"y\":{}}" + "," + ("\"z\":" + z)) + "}" == "{\"x\":{\"y\":{}},\"z\":" + z + "}"
  {
    assert Named("x") == "\"x\":" && Named("y") == "\"y\":" && Named("z") == "\"z\":";
    hide Named;
    assert "{" + ("\"x\":" + "{\"y\":{}}" + ",") == "{\"x\":{\"y\":{}},";
  }

  /** A printed key and its colon. */
  function Named(key: string): string {
    "\"" + key + "\"" + ":"
  }

  lemma ObjectPrints(members: S.Members)
    ensures S.Print(S.Object("", members)) == "{" + S.PrintMembers(members) + "}"
  {
    assert "" + S.PrintMembers(members) == S.PrintMembers(members);
  }

  lemma EmptyPrints()
    ensures S.Print(EMPTY) == "{}" && S.PrintMembers(S.NoMember) == ""
  {
  }

  lemma MemberPrints(key: string, value: S.Value, rest: S.Members)
    ensures S.PrintMembers(S.Member("", Chars(key), "", "", value, "", rest))
         == Named(key) + S.Print(value) + (if rest.NoMember? then "" else ",") + S.PrintMembers(rest)
  {
    CharsPrint(key);
    var q := S.PrintString(Chars(key));
    hide S.PrintString, S.Print, Chars;
    GlueMember(q, S.Print(value), if rest.NoMember? then "" else ",", S.PrintMembers(rest));
  }

  const CALL_HEAD := "{\"name\":\"a\",\"arguments\":"
  const INNER := CALL_HEAD + "{}}"
  const FRONT := CALL_HEAD + "{\"x\":{\"y\":{}},\"z\":"
  const OUTER := FRONT + INNER + "}}"

  /** The first match of the canonical pattern ends inside the outer call, after the value of "x", so the call inside
      is found as well. Both spans are those of whole calls; both are cut, and the following text is lost. */
  lemma NestedCallsLoseText(argsEnd: Option<nat>, end: Option<nat>, innerArgsEnd: Option<nat>, innerEnd: Option<nat>)
    requires S.IsObjectEnd(OUTER + "abc", 24, argsEnd)
    requires argsEnd.Some? ==> S.IsOuterEnd(OUTER + "abc", argsEnd.value, end)
    requires S.IsObjectEnd(OUTER + "abc", 66, innerArgsEnd)
    requires innerArgsEnd.Some? ==> S.IsOuterEnd(OUTER + "abc", innerArgsEnd.value, innerEnd)
    ensures end == Some(71) && innerEnd == Some(69)
    ensures var spans := [Span(0, 71), Span(42, 69)];
            Deleted(OUTER + "abc", spans) == "" && Uncovered(OUTER + "abc", spans, 0) == "abc"
  {
    var inner := CallOf(EMPTY);
    var outer := CallOf(ArgumentsOf(inner));
    CallsPrint();
    CallsOk();
    Lengths();
    hide S.IsObjectEnd, S.IsOuterEnd, S.Ok, S.Print, S.CallHead, Chars, Deleted, Uncovered, Drop;
    assert OUTER + "abc" == "" + S.Print(outer) + "abc";
    S.SpanIsTheCall("", outer, "abc", argsEnd, end);
    assert OUTER + "abc" == FRONT + S.Print(inner) + "}}abc";
    S.SpanIsTheCall(FRONT, inner, "}}abc", innerArgsEnd, innerEnd);
    NestedSpansEatText("", FRONT, INNER, "}}", "abc");
    assert "" + (FRONT + INNER + "}}") + "abc" == OUTER + "abc";
    DropsAll();
  }

  lemma CallsPrint()
    ensures S.Print(CallOf(EMPTY)) == INNER && S.Print(CallOf(ArgumentsOf(CallOf(EMPTY)))) == OUTER
    ensures S.CallHead(CallOf(EMPTY)) == CALL_HEAD && S.CallHead(CallOf(ArgumentsOf(CallOf(EMPTY)))) == CALL_HEAD
  {
    EmptyPrints();
    CallPrints(EMPTY);
    ArgumentsPrint(CallOf(EMPTY));
    CallPrints(ArgumentsOf(CallOf(EMPTY)));
    CallHeadIs(EMPTY);
    CallHeadIs(ArgumentsOf(CallOf(EMPTY)));
    hide S.Print, S.CallHead, CallOf, ArgumentsOf;
  }

  lemma NamesOk()
    ensures S.CharsOk(Chars("name")) && S.CharsOk(Chars("a")) && S.CharsOk(Chars("arguments"))
    ensures S.CharsOk(Chars("x")) && S.CharsOk(Chars("y")) && S.CharsOk(Chars("z"))
  {
  }

  lemma CallsOk()
    ensures S.Ok(CallOf(EMPTY)) && S.Ok(CallOf(ArgumentsOf(CallOf(EMPTY))))
  {
    NamesOk();
    hide S.CharsOk, Chars;
    CallOk(EMPTY);
    var y := S.Object("", S.Member("", Chars("y"), "", "", EMPTY, "", S.NoMember));
    assert S.Ok(y) && S.Ok(ArgumentsOf(CallOf(EMPTY)));
    CallOk(ArgumentsOf(CallOf(EMPTY)));
  }

  lemma CallOk(arguments: S.Value)
    requires S.Ok(arguments)
    ensures S.Ok(CallOf(arguments))
  {
    NamesOk();
    hide S.CharsOk, Chars;
    assert S.Ok(S.Str(Chars("a")));
    assert S.MembersOk(S.Member("", Chars("arguments"), "", "", arguments, "", S.NoMember));
    assert S.MembersOk(CallOf(arguments).members);
  }

  lemma Lengths()
    ensures |CALL_HEAD| == 24 && |INNER| == 27 && |FRONT| == 42 && |OUTER| == 71
  {
  }

  lemma DropsAll()
    ensures Drop("abc", 27) == ""
  {
  }

  // ---- the message ----

  /** A text-JSON call found in the segment after the last `</think>`. */
  datatype Candidate = Candidate(span: Span, name: string, arguments: string)

  function Accepted(candidates: seq<Candidate>, known: set<string>): (r: seq<Candidate>)
    ensures forall c :: c in r <==> c in candidates && c.name in known
  {
    if candidates == [] then []
    else (if candidates[0].name in known then [candidates[0]] else []) + Accepted(candidates[1..], known)
  }

  /** The allowlist loop. */
  method Accept(candidates: seq<Candidate>, known: set<string>) returns (accepted: seq<Candidate>)
    ensures accepted == Accepted(candidates, known)
  {
    accepted := [];
    for i := 0 to |candidates|
      invariant accepted + Accepted(candidates[i..], known) == Accepted(candidates, known)
    {
      AcceptOne(accepted, candidates[i..], known);
      assert candidates[i..][1..] == candidates[i + 1..];
      if candidates[i].name in known {
        accepted := accepted + [candidates[i]];
      }
      hide Accepted;
    }
  }

  lemma AcceptOne(front: seq<Candidate>, candidates: seq<Candidate>, known: set<string>)
    requires candidates != []
    ensures front + Accepted(candidates, known)
         == (if candidates[0].name in known then front + [candidates[0]] else front) + Accepted(candidates[1..], known)
  {
  }

  /** The loop keeps every advertised candidate as often as it comes and in its place, and no other. */
  lemma {:induction false} AcceptedParts(a: seq<Candidate>, b: seq<Candidate>, known: set<string>)
    ensures Accepted(a + b, known) == Accepted(a, known) + Accepted(b, known)
    ensures |a| == 1 ==> Accepted(a, known) == if a[0].name in known then a else []
  {
    if a == [] {
      assert a + b == b;
    } else {
      assert (a + b)[1..] == a[1..] + b;
      AcceptedParts(a[1..], b, known);
      FirstAccepted(a, known);
      FirstAccepted(a + b, known);
      hide Accepted;
      Glue(if a[0].name in known then [a[0]] else [], Accepted(a[1..], known), Accepted(b, known));
    }
    if |a| == 1 {
      FirstAccepted(a, known);
      assert a == [a[0]];
    }
  }

  lemma FirstAccepted(a: seq<Candidate>, known: set<string>)
    requires a != []
    ensures Accepted(a, known) == (if a[0].name in known then [a[0]] else []) + Accepted(a[1..], known)
    ensures |a| == 1 ==> Accepted(a[1..], known) == []
  {
  }

  lemma Glue(a: seq<Candidate>, b: seq<Candidate>, c: seq<Candidate>)
    ensures a + (b + c) == a + b + c
  {
  }

  function Spans(candidates: seq<Candidate>): seq<Span> {
    seq(|candidates|, i requires 0 <= i < |candidates| => candidates[i].span)
  }

  datatype Reply = Reply(content: Option<string>, toolCalls: seq<Candidate>, finishReason: string)

  /** The content before the accepted calls are taken out: what is not searched, and what is. */
  function Head(content: string): string {
    content[..SegmentStart(content)]
  }

  /** The reply after `maybe_recover_tool_calls`. */
  function Recovered(r: Reply, known: set<string>, candidates: seq<Candidate>): Reply {
    if r.toolCalls != [] || known == {} || r.content.None? || Blank(r.content.value)
        || Accepted(candidates, known) == []
    then r
    else
      var content, accepted := r.content.value, Accepted(candidates, known);
      var kept := Head(content) + Deleted(Segment(content), Spans(accepted));
      Reply(Some(Tidied(kept)), accepted, "tool_calls")
  }

  class Choice {
    var content: Option<string>
    var toolCalls: seq<Candidate>
    var finishReason: string

    function State(): Reply
      reads this
    {
      Reply(content, toolCalls, finishReason)
    }

    constructor (r: Reply)
      ensures State() == r
    {
      content, toolCalls, finishReason := r.content, r.toolCalls, r.finishReason;
    }

    method MaybeRecoverToolCalls(known: set<string>, candidates: seq<Candidate>)
      modifies this
      ensures State() == Recovered(old(State()), known, candidates)
    {
      hide Accepted, Blank, Deleted, SegmentStart, Spans, Strip, Squashed;
      if toolCalls != [] || known == {} || content.None? || Strip(content.value) == "" {
        return;
      }
      var accepted := Accept(candidates, known);
      if accepted == [] {
        return;
      }
      var segmentStart := SegmentStart(content.value);
      var kept := StripSpans(content.value[segmentStart..], Spans(accepted));
      content := Some(Strip(Squashed(content.value[..segmentStart] + kept)));
      toolCalls := accepted;
      finishReason := "tool_calls";
    }
  }

  /** A second recovery changes nothing, whatever it finds, and only advertised names are recovered. */
  lemma RecoveryIsIdempotent(r: Reply, known: set<string>, candidates: seq<Candidate>, again: seq<Candidate>)
    ensures var once := Recovered(r, known, candidates);
            once != r ==>
              && Recovered(once, known, again) == once
              && once.toolCalls != [] && forall c :: c in once.toolCalls ==> c.name in known
  {
  }

  lemma HeadEndsInMarker(content: string)
    ensures Head(content) == "" || (Head(content)[|Head(content)| - 1] == '>' && !IsSpace('>'))
  {
    match LastIndex(content, THINK_CLOSE)
    case None =>
    case Some(i) => assert content[i..i + |THINK_CLOSE|][|THINK_CLOSE| - 1] == '>';
  }

  /** A reply changes exactly if it has no calls yet, tools are advertised, its content is not blank, and an advertised
      call was found; it then ends in tool calls, which are the advertised candidates in order. */
  lemma RecoversExactly(r: Reply, known: set<string>, candidates: seq<Candidate>)
    ensures var once := Recovered(r, known, candidates);
            && (once != r <==> r.toolCalls == [] && r.content.Some? && !Blank(r.content.value)
                               && exists c :: c in candidates && c.name in known)
            && (once != r ==> once.finishReason == "tool_calls" && once.toolCalls == Accepted(candidates, known))
  {
    if exists c :: c in candidates && c.name in known {
      var c :| c in candidates && c.name in known;
      assert c in Accepted(candidates, known);
    }
    if Accepted(candidates, known) != [] {
      assert Accepted(candidates, known)[0] in Accepted(candidates, known);
    }
  }

  /** What a recovery leaves of the text: all of it but the white space and what the cuts take from the searched
      part. The part that is not searched, up to the last `</think>`, is kept to the letter exactly if it starts with
      no white space and has no run of three newlines. */
  lemma RecoveryKeepsText(r: Reply, known: set<string>, candidates: seq<Candidate>)
    requires r.content.Some? && Recovered(r, known, candidates) != r
    ensures var content, after := r.content.value, Recovered(r, known, candidates).content;
            var rest := Deleted(Segment(content), Spans(Accepted(candidates, known)));
            && after.Some?
            && Ink(after.value) == Ink(Head(content)) + Ink(rest)
            && (Head(content) <= after.value <==>
                  Head(content) == "" || (!IsSpace(Head(content)[0]) && !HasRun(Head(content))))
  {
    var content, rest := r.content.value, Deleted(Segment(r.content.value), Spans(Accepted(candidates, known)));
    HeadEndsInMarker(content);
    TidyingKeepsInk(Head(content), rest);
    HeadKeptExactly(Head(content), rest);
    hide Deleted, Accepted, Spans, Tidied, Head, Ink, HasRun, Segment;
  }

  /** A head that does not survive: the newline before the marker is stripped with the call. */
  lemma HeadCanChange()
    ensures var r := Reply(Some("\n" + THINK_CLOSE + INNER), [], "stop");
            var once := Recovered(r, {"a"}, [Candidate(Span(0, 27), "a", "{}")]);
            once != r && Head(r.content.value) == "\n" + THINK_CLOSE && !(Head(r.content.value) <= once.content.value)
  {
    var content := "\n" + THINK_CLOSE + INNER;
    var r, cs := Reply(Some(content), [], "stop"), [Candidate(Span(0, 27), "a", "{}")];
    MarkerStart(content);
    assert cs[1..] == [] && Accepted([], {"a"}) == [];
    assert Accepted(cs, {"a"}) == cs;
    assert !Blank(content) by {
      assert content[1] == '<';
    }
    hide Accepted, Deleted, Spans, Tidied, Blank;
    assert Head(content) == "\n" + THINK_CLOSE;
    RecoveryKeepsText(r, {"a"}, cs);
  }

  lemma MarkerStart(content: string)
    requires content == "\n" + THINK_CLOSE + INNER
    ensures SegmentStart(content) == 9
  {
    assert content[1..9] == THINK_CLOSE;
    forall j: nat | j > 1 ensures !OccursAt(content, THINK_CLOSE, j) {
      Reasoning.NoMarkerAt(content, j);
    }
    assert OccursAt(content, THINK_CLOSE, 1);
  }
}
