/** The tidying of a message after calls were taken out of it: runs of newlines are squashed, white space is
    stripped at both ends. What of the text survives. */
module Tidy {
  import opened Text

  /** `re.sub(r"\n{3,}", "\n\n", s)`: of a run of newlines only the first two are kept. */
  function Squashed(s: string): (r: string)
    ensures |r| <= |s|
  {
    if s == "" then ""
    else Squashed(s[..|s| - 1]) + if EndsRun(s) then "" else [s[|s| - 1]]
  }

  predicate RunAt(s: string, i: nat) {
    i + 3 <= |s| && s[i] == '\n' && s[i + 1] == '\n' && s[i + 2] == '\n'
  }

  /** The last character is the third or a later newline of its run. */
  predicate EndsRun(s: string) {
    |s| >= 3 && RunAt(s, |s| - 3)
  }

  /** The text without its white space. */
  function Ink(s: string): string {
    if s == "" then "" else Ink(s[..|s| - 1]) + if IsSpace(s[|s| - 1]) then "" else [s[|s| - 1]]
  }

  function Tidied(s: string): string {
    Strip(Squashed(s))
  }

  ghost predicate HasRun(s: string) {
    exists i: nat :: RunAt(s, i)
  }

  /** How many newlines `s` ends with. */
  function Trail(s: string): nat {
    if s == "" || s[|s| - 1] != '\n' then 0 else 1 + Trail(s[..|s| - 1])
  }

  function Newlines(n: nat): string {
    seq(n, _ => '\n')
  }

  // ---- squashing ----

  lemma TrailIsRun(s: string)
    ensures EndsRun(s) <==> Trail(s) >= 3
  {
    if s != "" && s[|s| - 1] == '\n' {
      var a := s[..|s| - 1];
      if a != "" && a[|a| - 1] == '\n' {
        var b := a[..|a| - 1];
        assert Trail(s) == 2 + Trail(b);
      }
    }
  }

  lemma RunAppears(s: string, c: char)
    ensures HasRun(s + [c]) <==> HasRun(s) || EndsRun(s + [c])
  {
    var t := s + [c];
    forall i: nat ensures RunAt(t, i) <==> RunAt(s, i) || (i + 3 == |t| && RunAt(t, i)) {
    }
  }

  /** The result has no run of three newlines, and ends with as many newlines as the text, but at most two. */
  lemma {:induction false} SquashedHasNoRun(s: string)
    ensures !HasRun(Squashed(s))
    ensures Trail(Squashed(s)) == if Trail(s) < 2 then Trail(s) else 2
  {
    if s != "" {
      var front, c := s[..|s| - 1], s[|s| - 1];
      SquashedHasNoRun(front);
      TrailIsRun(s);
      var r := Squashed(front);
      assert Squashed(s) == if EndsRun(s) then r else r + [c];
      RunAppears(r, c);
      TrailIsRun(r + [c]);
      assert (r + [c])[..|r|] == r;
    }
  }

  /** A text without such a run stays as it is. */
  lemma {:induction false} NoRunStays(s: string)
    requires !HasRun(s)
    ensures Squashed(s) == s
  {
    if s != "" {
      var front := s[..|s| - 1];
      assert s == front + [s[|s| - 1]];
      RunAppears(front, s[|s| - 1]);
      NoRunStays(front);
    }
  }

  /** Where no run of newlines goes across, the parts are squashed on their own. */
  lemma {:induction false} SquashParts(a: string, b: string)
    requires a == "" || b == "" || a[|a| - 1] != '\n' || b[0] != '\n'
    ensures Squashed(a + b) == Squashed(a) + Squashed(b)
  {
    if b == "" {
      assert a + b == a;
    } else {
      var front := b[..|b| - 1];
      assert (a + b)[..|a + b| - 1] == a + front;
      RunStaysInPart(a, b);
      assert Squashed(a + b) == Squashed(a + front) + if EndsRun(b) then "" else [b[|b| - 1]];
      assert Squashed(b) == Squashed(front) + if EndsRun(b) then "" else [b[|b| - 1]];
      hide Squashed, EndsRun;
      SquashParts(a, front);
    }
  }

  lemma RunStaysInPart(a: string, b: string)
    requires b != "" && (a == "" || a[|a| - 1] != '\n' || b[0] != '\n')
    ensures EndsRun(a + b) <==> EndsRun(b)
  {
    var s := a + b;
    assert |b| < 3 && |s| >= 3 ==> s[|a|] == b[0] && s[|a| - 1] == a[|a| - 1];
  }

  /** And a run of n newlines becomes one of at most two. */
  lemma {:induction false} SquashRun(n: nat)
    ensures Squashed(Newlines(n)) == Newlines(if n < 2 then n else 2)
  {
    if n > 0 {
      var s := Newlines(n);
      assert s[..n - 1] == Newlines(n - 1);
      SquashRun(n - 1);
    }
  }

  /** A longer text starts with what its beginning is squashed to. */
  lemma {:induction false} SquashPrefix(a: string, b: string)
    ensures Squashed(a) <= Squashed(a + b)
  {
    if b == "" {
      assert a + b == a;
    } else {
      assert (a + b)[..|a + b| - 1] == a + b[..|b| - 1];
      SquashPrefix(a, b[..|b| - 1]);
    }
  }

  // ---- what survives ----

  lemma {:induction false} InkAppend(a: string, b: string)
    ensures Ink(a + b) == Ink(a) + Ink(b)
  {
    if b == "" {
      assert a + b == a;
    } else {
      assert (a + b)[..|a + b| - 1] == a + b[..|b| - 1];
      InkAppend(a, b[..|b| - 1]);
    }
  }

  lemma {:induction false} BlankHasNoInk(s: string)
    requires Blank(s)
    ensures Ink(s) == ""
  {
    if s != "" {
      BlankHasNoInk(s[..|s| - 1]);
    }
  }

  lemma {:induction false} SquashKeepsInk(s: string)
    ensures Ink(Squashed(s)) == Ink(s)
  {
    if s != "" {
      var front, c := s[..|s| - 1], s[|s| - 1];
      assert s == front + [c];
      SquashKeepsInk(front);
      InkAppend(front, [c]);
      InkAppend(Squashed(front), [c]);
      assert EndsRun(s) ==> c == '\n';
      if EndsRun(s) {
        BlankHasNoInk([c]);
        assert Squashed(s) == Squashed(front);
      } else {
        assert Squashed(s) == Squashed(front) + [c];
      }
      hide Ink, EndsRun, Squashed;
    }
  }

  lemma StripKeepsInk(s: string)
    ensures Ink(Strip(s)) == Ink(s)
  {
    var l := LStrip(s);
    var r := RStrip(l);
    hide Ink, LStrip, RStrip, Blank;
    BlankHasNoInk(s[..|s| - |l|]);
    BlankHasNoInk(l[|r|..]);
    InkAppend(s[..|s| - |l|], l);
    InkAppend(r, l[|r|..]);
    assert s == s[..|s| - |l|] + l && l == r + l[|r|..];
  }

  /** Tidying drops nothing but white space, so all other characters stay, in order. */
  lemma TidyingKeepsInk(head: string, rest: string)
    ensures Ink(Tidied(head + rest)) == Ink(head) + Ink(rest)
  {
    StripKeepsInk(Squashed(head + rest));
    SquashKeepsInk(head + rest);
    InkAppend(head, rest);
  }

  lemma StrippedHasNoRun(s: string)
    requires !HasRun(s)
    ensures !HasRun(Strip(s))
  {
    var l := LStrip(s);
    var r := RStrip(l);
    hide LStrip, RStrip, Blank;
    forall i: nat ensures !RunAt(r, i) {
      RunLifts(s, l, r, i);
    }
  }

  lemma RunLifts(s: string, l: string, r: string, i: nat)
    requires |l| <= |s| && l == s[|s| - |l|..] && r <= l
    ensures RunAt(r, i) ==> RunAt(s, |s| - |l| + i)
  {
  }

  /** A beginning that ends in ink is kept to the letter exactly if it starts with ink and has no run of three
      newlines. */
  lemma HeadKeptExactly(head: string, rest: string)
    requires head != "" ==> !IsSpace(head[|head| - 1])
    ensures head <= Tidied(head + rest) <==> head == "" || (!IsSpace(head[0]) && !HasRun(head))
  {
    if head != "" {
      var t := Tidied(head + rest);
      SquashedHasNoRun(head + rest);
      StrippedHasNoRun(Squashed(head + rest));
      if !IsSpace(head[0]) && !HasRun(head) {
        CleanHeadIsKept(head, rest);
      }
      hide Tidied, Squashed, Strip, IsSpace;
      if head <= t {
        assert t[0] == head[0];
        forall i: nat ensures !RunAt(head, i) {
          assert RunAt(head, i) ==> RunAt(t, i);
        }
      }
    }
  }

  lemma CleanHeadIsKept(head: string, rest: string)
    requires head != "" && !IsSpace(head[0]) && !IsSpace(head[|head| - 1]) && !HasRun(head)
    ensures head <= Tidied(head + rest)
  {
    NoRunStays(head);
    SquashPrefix(head, rest);
    var q := Squashed(head + rest);
    hide Squashed, HasRun;
    assert q[0] == head[0] && q[|head| - 1] == head[|head| - 1] && q[..|head|] == head;
    PrefixNotStripped(q, |head|);
    hide Strip;
  }

  lemma PrefixNotStripped(s: string, n: nat)
    requires 0 < n <= |s| && !IsSpace(s[0]) && !IsSpace(s[n - 1])
    ensures s[..n] <= Strip(s)
  {
    var l := LStrip(s);
    var r := RStrip(l);
    assert l == s;
    hide LStrip, RStrip;
    forall i | |r| <= i < |l| ensures IsSpace(l[i]) {
      assert l[|r|..][i - |r|] == l[i];
    }
  }
}
