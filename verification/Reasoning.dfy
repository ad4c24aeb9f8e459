/** The reasoning merge of chat_completion.py, and why the text search that follows never sees reasoning. */
module Reasoning {
  import opened Wrappers
  import opened Text
  import opened Tidy

  /** The content of a message after `_merge_reasoning_into_content`. */
  function Merged(reasoning: string, content: string): string {
    if Blank(reasoning) then content
    else if Blank(content) then "<think>\n" + Strip(reasoning) + "\n</think>"
    else "<think>\n" + Strip(reasoning) + "\n</think>\n\n" + content
  }

  function StripThinkingWrapper(content: string): string {
    if LastIndex(content, THINK_CLOSE).Some? then LStrip(Segment(content)) else content
  }

  class Message {
    var reasoning: string
    var content: string

    constructor (reasoning: string, content: string)
      ensures this.reasoning == reasoning && this.content == content
    {
      this.reasoning, this.content := reasoning, content;
    }
  }

  method MergeOne(msg: Message)
    modifies msg`content
    ensures msg.content == Merged(msg.reasoning, old(msg.content))
  {
    var stripped := Strip(msg.reasoning);
    if stripped == "" {
      return;
    }
    if Strip(msg.content) != "" {
      msg.content := "<think>\n" + stripped + "\n</think>\n\n" + msg.content;
    } else {
      msg.content := "<think>\n" + stripped + "\n</think>";
    }
  }

  /** The loop over the choices' messages; a structured-output request is left alone. */
  method MergeReasoningIntoContent(messages: seq<Message>, structured: bool)
    requires forall i, j :: 0 <= i < j < |messages| ==> messages[i] != messages[j]
    modifies messages
    ensures forall m :: m in messages ==>
              && m.reasoning == old(m.reasoning)
              && m.content == if structured then old(m.content) else Merged(old(m.reasoning), old(m.content))
  {
    hide Merged;
    if structured {
      return;
    }
    for i := 0 to |messages|
      invariant forall m :: m in messages ==> m.reasoning == old(m.reasoning)
      invariant forall j :: 0 <= j < i ==>
          messages[j].content == Merged(messages[j].reasoning, old(messages[j].content))
      invariant forall j :: i <= j < |messages| ==> messages[j].content == old(messages[j].content)
    {
      MergeOne(messages[i]);
    }
  }

  lemma NoMarkerAt(s: string, i: nat)
    requires i < |s| ==> s[i] != '<'
    ensures !OccursAt(s, THINK_CLOSE, i)
  {
    if i + |THINK_CLOSE| <= |s| {
      assert s[i..i + |THINK_CLOSE|][0] == s[i];
    }
  }

  lemma TailOccurrence(s: string, n: nat, j: nat)
    requires n <= j && n <= |s|
    ensures OccursAt(s, THINK_CLOSE, j) <==> OccursAt(s[n..], THINK_CLOSE, j - n)
  {
    if j + |THINK_CLOSE| <= |s| {
      assert s[j..j + |THINK_CLOSE|] == s[n..][j - n..j - n + |THINK_CLOSE|];
    }
  }

  /** If no marker starts between the one at `at` and position `n`, the last marker is found from `n` on,
      or else is the one at `at`. */
  lemma LastMarker(s: string, at: nat, n: nat)
    requires OccursAt(s, THINK_CLOSE, at) && at < n <= |s|
    requires forall j :: at < j < n ==> s[j] != '<'
    ensures LastIndex(s, THINK_CLOSE) == match LastIndex(s[n..], THINK_CLOSE)
                                         case None => Some(at)
                                         case Some(i) => Some(n + i)
  {
    forall j: nat | j > at ensures OccursAt(s, THINK_CLOSE, j) <==> j >= n && OccursAt(s[n..], THINK_CLOSE, j - n) {
      if j >= n {
        TailOccurrence(s, n, j);
      } else {
        NoMarkerAt(s, j);
      }
    }
    hide OccursAt, LastIndex;
    var tail := LastIndex(s[n..], THINK_CLOSE);
    assert tail.Some? ==> OccursAt(s, THINK_CLOSE, n + tail.value);
    var r := LastIndex(s, THINK_CLOSE);
    assert r.Some?;
    assert tail.Some? ==> r.value >= n + tail.value;
    assert r.value > at ==> OccursAt(s[n..], THINK_CLOSE, r.value - n);
  }

  lemma MarkedSegment(head: string, gap: string, tail: string)
    requires '<' !in gap
    ensures Segment(head + THINK_CLOSE + gap + tail)
         == if LastIndex(tail, THINK_CLOSE).Some? then Segment(tail) else gap + tail
  {
    var s, n := head + THINK_CLOSE + gap + tail, |head| + |THINK_CLOSE| + |gap|;
    assert s[n..] == tail && s[|head|..|head| + |THINK_CLOSE|] == THINK_CLOSE;
    forall j | |head| < j < n ensures s[j] != '<' {
      assert s[j] == (THINK_CLOSE + gap)[j - |head|];
      assert j - |head| >= |THINK_CLOSE| ==> s[j] in gap;
    }
    LastMarker(s, |head|, n);
    hide LastIndex;
    assert s[|head| + |THINK_CLOSE|..] == gap + tail;
    var i := LastIndex(tail, THINK_CLOSE);
    assert i.Some? ==> s[n + i.value + |THINK_CLOSE|..] == tail[i.value + |THINK_CLOSE|..];
  }

  lemma BlankHasNoMarker(s: string)
    requires Blank(s)
    ensures LastIndex(s, THINK_CLOSE).None?
  {
    forall i: nat ensures !OccursAt(s, THINK_CLOSE, i) {
      NoMarkerAt(s, i);
    }
  }

  /** What is searched for tool calls after the merge: the content's own text after its last marker, or the
      whole content after two newlines, or nothing. */
  lemma WhatIsScanned(reasoning: string, content: string)
    ensures Segment(Merged(reasoning, content))
         == if Blank(reasoning) || LastIndex(content, THINK_CLOSE).Some? then Segment(content)
            else if Blank(content) then ""
            else "\n\n" + content
  {
    if !Blank(reasoning) {
      if Blank(content) {
        BlankHasNoMarker(content);
        BlankIsNotScanned(reasoning, content);
      } else {
        ContentIsScanned(reasoning, content);
      }
    }
    hide Merged, LastIndex, Segment, Blank;
  }

  lemma BlankIsNotScanned(reasoning: string, content: string)
    requires !Blank(reasoning) && Blank(content)
    ensures Segment(Merged(reasoning, content)) == ""
  {
    var head := "<think>\n" + Strip(reasoning) + "\n";
    BlankHasNoMarker("");
    MarkedSegment(head, "", "");
    hide LastIndex, Segment, Strip, Blank;
    Regroup("<think>\n", Strip(reasoning), "\n", THINK_CLOSE, "", "");
    assert "\n</think>" == "\n" + THINK_CLOSE + "";
  }

  lemma Regroup(a: string, b: string, c: string, d: string, e: string, f: string)
    ensures a + b + (c + d + e) + f == (a + b + c) + d + e + f
    ensures f == "" ==> a + b + (c + d + e) == (a + b + c) + d + e + f
  {
  }

  lemma ContentIsScanned(reasoning: string, content: string)
    requires !Blank(reasoning) && !Blank(content)
    ensures Segment(Merged(reasoning, content))
         == if LastIndex(content, THINK_CLOSE).Some? then Segment(content) else "\n\n" + content
  {
    hide LastIndex, Segment, Strip, Blank;
    var inner := Strip(reasoning);
    assert Merged(reasoning, content) == "<think>\n" + inner + "\n</think>\n\n" + content;
    hide Merged;
    CloseLiteral();
    Regroup("<think>\n", inner, "\n", THINK_CLOSE, "\n\n", content);
    MarkedSegment("<think>\n" + inner + "\n", "\n\n", content);
  }

  lemma CloseLiteral()
    ensures "\n</think>\n\n" == "\n" + THINK_CLOSE + "\n\n" && '<' !in "\n\n"
  {
  }

  /** In every case it is a suffix of two newlines and the original content: no character of the reasoning
      is searched. */
  lemma ReasoningIsNeverScanned(reasoning: string, content: string)
    ensures var scanned := Segment(Merged(reasoning, content));
            |scanned| <= |content| + 2 && scanned == ("\n\n" + content)[|content| + 2 - |scanned|..]
  {
    WhatIsScanned(reasoning, content);
    hide Merged, LastIndex;
  }

  /** Stripping the wrapper of a merged message gives back what stripping would make of the content alone,
      left-stripped: the content itself when it has no marker. */
  lemma StripUndoesMerge(reasoning: string, content: string)
    requires !Blank(reasoning)
    ensures StripThinkingWrapper(Merged(reasoning, content))
         == if LastIndex(content, THINK_CLOSE).Some? then LStrip(Segment(content)) else LStrip(content)
  {
    WhatIsScanned(reasoning, content);
    MergedHasMarker(reasoning, content);
    NewlinesStrip(content);
    hide Merged, LastIndex, Segment, LStrip, Blank;
    if Blank(content) {
      BlankHasNoMarker(content);
    }
  }

  // ---- what the merge keeps ----

  const OPEN := "<think>"

  /** Nothing is lost in a merge. The message opens with the tag and, verbatim, the stripped reasoning, directly
      followed by a line with the marker; the content is its end unless it is blank; and white space aside there is
      nothing else. Blank reasoning leaves the content as it is. */
  lemma MergeKeepsBoth(reasoning: string, content: string)
    ensures var m, n := Merged(reasoning, content), |OPEN| + 1 + |Strip(reasoning)|;
            if Blank(reasoning) then m == content
            else
              && OPEN + "\n" + Strip(reasoning) <= m && OccursAt(m, "\n" + THINK_CLOSE, n)
              && (!Blank(content) ==> |content| <= |m| && m[|m| - |content|..] == content)
              && Ink(m) == OPEN + Ink(reasoning) + THINK_CLOSE + Ink(content)
  {
    if !Blank(reasoning) {
      var rest := if Blank(content) then "" else "\n\n" + content;
      MergedIs(reasoning, content);
      StripKeepsInk(reasoning);
      RestInk(content);
      hide Merged, Strip, Blank, Ink;
      MergedInk(Strip(reasoning), rest);
      MarkerFollows(OPEN + "\n" + Strip(reasoning), rest);
    }
  }

  lemma MergedIs(reasoning: string, content: string)
    requires !Blank(reasoning)
    ensures Merged(reasoning, content) == OPEN + "\n" + Strip(reasoning) + ("\n" + THINK_CLOSE)
                                          + (if Blank(content) then "" else "\n\n" + content)
  {
    hide Strip, Blank;
    MergeLiterals();
    var head := OPEN + "\n" + Strip(reasoning);
    assert head + ("\n" + THINK_CLOSE + "\n\n") + content == head + ("\n" + THINK_CLOSE) + ("\n\n" + content);
  }

  lemma MarkerFollows(head: string, rest: string)
    ensures var m := head + ("\n" + THINK_CLOSE) + rest;
            head <= m && OccursAt(m, "\n" + THINK_CLOSE, |head|) && m[|m| - |rest|..] == rest
  {
  }

  lemma MergeLiterals()
    ensures "<think>\n" == OPEN + "\n" && "\n</think>" == "\n" + THINK_CLOSE
    ensures "\n</think>\n\n" == "\n" + THINK_CLOSE + "\n\n"
  {
  }

  lemma MergedInk(inner: string, rest: string)
    ensures Ink(OPEN + "\n" + inner + ("\n" + THINK_CLOSE) + rest) == OPEN + Ink(inner) + THINK_CLOSE + Ink(rest)
  {
    InkAppend(OPEN + "\n" + inner + ("\n" + THINK_CLOSE), rest);
    InkAppend(OPEN + "\n" + inner, "\n" + THINK_CLOSE);
    InkAppend(OPEN + "\n", inner);
    InkAppend(OPEN, "\n");
    InkAppend("\n", THINK_CLOSE);
    LiteralInk();
    hide Ink;
    assert OPEN + "" == OPEN && "" + THINK_CLOSE == THINK_CLOSE;
  }

  lemma RestInk(content: string)
    ensures Ink(if Blank(content) then "" else "\n\n" + content) == Ink(content)
  {
    if Blank(content) {
      BlankHasNoInk(content);
    } else {
      InkAppend("\n\n", content);
      BlankHasNoInk("\n\n");
      assert "" + Ink(content) == Ink(content);
    }
    BlankHasNoInk("");
    hide Ink;
  }

  lemma LiteralInk()
    ensures Ink(OPEN) == OPEN && Ink(THINK_CLOSE) == THINK_CLOSE && Ink("\n") == ""
  {
    hide Ink;
    FullInk(OPEN);
    FullInk(THINK_CLOSE);
    BlankHasNoInk("\n");
  }

  lemma {:induction false} FullInk(s: string)
    requires forall i :: 0 <= i < |s| ==> !IsSpace(s[i])
    ensures Ink(s) == s
  {
    if s != "" {
      FullInk(s[..|s| - 1]);
    }
  }

  lemma SpaceStrips(c: char, s: string)
    requires IsSpace(c)
    ensures LStrip([c] + s) == LStrip(s)
  {
    assert ([c] + s)[1..] == s;
  }

  lemma NewlinesStrip(content: string)
    ensures LStrip("\n\n" + content) == LStrip(content)
    ensures Blank(content) ==> LStrip(content) == LStrip("") == ""
  {
    hide LStrip, Blank;
    var once := ['\n'] + content;
    SpaceStrips('\n', content);
    SpaceStrips('\n', once);
    BlankStrips(content);
    assert "\n\n" + content == ['\n'] + once;
  }

  lemma BlankStrips(s: string)
    ensures LStrip("") == "" && (Blank(s) ==> LStrip(s) == "")
  {
    var r := LStrip(s);
    assert r != "" ==> s[|s| - |r|] == r[0];
    hide IsSpace;
  }

  lemma MergedHasMarker(reasoning: string, content: string)
    requires !Blank(reasoning)
    ensures LastIndex(Merged(reasoning, content), THINK_CLOSE).Some?
  {
    var s, head := Merged(reasoning, content), "<think>\n" + Strip(reasoning) + "\n";
    var rest := if Blank(content) then "" else "\n\n" + content;
    hide Strip, Blank, LastIndex;
    assert s == head + THINK_CLOSE + rest;
    hide Merged;
    assert s[|head|..|head| + |THINK_CLOSE|] == THINK_CLOSE;
    assert OccursAt(s, THINK_CLOSE, |head|);
  }
}
