/** The manifest store of manifest.py: conditional writes by revision (section 13.1.1 of RFC 9110). */
module ManifestStore {
  import opened Wrappers
  import opened Text

  /** `body` stands for every field but the tag and the revision. */
  datatype Manifest = Manifest(tag: string, revision: nat, body: string)

  type Contents = map<string, Manifest>

  datatype Outcome = Written(m: Manifest) | MatchRequired | MatchFailed

  function ETag(m: Manifest): string {
    "\"" + Decimal(m.revision) + "\""
  }

  /** `write_manifest_atomic`: what it answers and what it stores. */
  function Answer(s: Contents, m: Manifest, ifMatch: Option<string>): Outcome {
    if m.tag !in s then Written(m)
    else if ifMatch.None? then MatchRequired
    else if ifMatch.value != ETag(s[m.tag]) then MatchFailed
    else Written(m.(revision := s[m.tag].revision + 1))
  }

  function AfterWrite(s: Contents, m: Manifest, ifMatch: Option<string>): Contents {
    match Answer(s, m, ifMatch)
    case Written(stored) => s[m.tag := stored]
    case _ => s
  }

  class Store {
    var at: Contents

    constructor ()
      ensures at == map[]
    {
      at := map[];
    }

    method WriteManifestAtomic(m: Manifest, ifMatch: Option<string>) returns (r: Outcome)
      modifies this
      ensures r == Answer(old(at), m, ifMatch)
      ensures at == AfterWrite(old(at), m, ifMatch)
    {
      var manifest := m;
      if m.tag in at {
        var existing := at[m.tag];
        if ifMatch.None? {
          return MatchRequired;
        }
        var actual := ETag(existing);
        if ifMatch.value != actual {
          return MatchFailed;
        }
        manifest := m.(revision := existing.revision + 1);
      }
      at := at[m.tag := manifest];
      return Written(manifest);
    }

    method DeleteManifest(tag: string) returns (removed: bool)
      modifies this
      ensures removed == (tag in old(at)) && at == old(at) - {tag}
    {
      if tag in at {
        at := at - {tag};
        return true;
      }
      return false;
    }
  }

  // ---- interleavings of any number of clients ----

  datatype Op = Write(m: Manifest, ifMatch: Option<string>) | Delete(tag: string)

  function Apply(s: Contents, op: Op): Contents {
    match op
    case Write(m, ifMatch) => AfterWrite(s, m, ifMatch)
    case Delete(tag) => s - {tag}
  }

  function After(s: Contents, ops: seq<Op>): Contents {
    if ops == [] then s else Apply(After(s, ops[..|ops| - 1]), ops[|ops| - 1])
  }

  /** The contents when operation `k` starts. */
  function Before(s: Contents, ops: seq<Op>, k: nat): Contents
    requires k <= |ops|
  {
    After(s, ops[..k])
  }

  predicate Accepted(s: Contents, op: Op, tag: string) {
    op.Write? && op.m.tag == tag && Answer(s, op.m, op.ifMatch).Written?
  }

  /** How many of the first `k` operations are accepted writes of `tag`. */
  function Writes(s: Contents, ops: seq<Op>, tag: string, k: nat): nat
    requires k <= |ops|
  {
    if k == 0 then 0
    else Writes(s, ops, tag, k - 1) + if Accepted(Before(s, ops, k - 1), ops[k - 1], tag) then 1 else 0
  }

  lemma NextContents(s: Contents, ops: seq<Op>, k: nat)
    requires k < |ops|
    ensures Before(s, ops, k + 1) == Apply(Before(s, ops, k), ops[k])
  {
    assert ops[..k + 1][..k] == ops[..k];
  }

  /** Between deletions the accepted writes of a tag form a chain: its revision has grown by exactly one for
      each of them, so by nothing else. */
  lemma {:induction false} RevisionCountsWrites(s: Contents, ops: seq<Op>, tag: string, j: nat, k: nat)
    requires j <= k <= |ops| && tag in Before(s, ops, j)
    requires forall i :: j <= i < k ==> ops[i] != Delete(tag)
    ensures tag in Before(s, ops, k)
    ensures Before(s, ops, k)[tag].revision - Before(s, ops, j)[tag].revision
         == Writes(s, ops, tag, k) - Writes(s, ops, tag, j) >= 0
    ensures Writes(s, ops, tag, k) == Writes(s, ops, tag, j) ==> Before(s, ops, k)[tag] == Before(s, ops, j)[tag]
    decreases k - j
  {
    if j < k {
      RevisionCountsWrites(s, ops, tag, j, k - 1);
      NextContents(s, ops, k - 1);
      hide After, ETag;
    }
  }

  /** An accepted write of an existing manifest replaces the version whose ETag it carried, by its own text
      under the next revision. */
  lemma AcceptedCarriesTag(s: Contents, ops: seq<Op>, tag: string, k: nat)
    requires k < |ops| && tag in Before(s, ops, k) && Accepted(Before(s, ops, k), ops[k], tag)
    ensures ops[k].ifMatch == Some(ETag(Before(s, ops, k)[tag]))
    ensures tag in Before(s, ops, k + 1)
    ensures Before(s, ops, k + 1)[tag] == ops[k].m.(revision := Before(s, ops, k)[tag].revision + 1)
  {
    NextContents(s, ops, k);
    hide After, ETag;
  }

  lemma EqualTagsEqualRevisions(a: Manifest, b: Manifest)
    requires ETag(a) == ETag(b)
    ensures a.revision == b.revision
  {
    assert ETag(a)[1..|ETag(a)| - 1] == Decimal(a.revision);
    assert ETag(b)[1..|ETag(b)| - 1] == Decimal(b.revision);
    DecimalIsInjective(a.revision, b.revision);
  }

  /** No lost update: a client that read a manifest before operation `j` and whose write with its ETag is
      accepted as operation `k`, with no deletion in between, replaces the very manifest it read. */
  lemma NoLostUpdate(s: Contents, ops: seq<Op>, tag: string, j: nat, k: nat)
    requires j <= k < |ops| && tag in Before(s, ops, j)
    requires forall i :: j <= i < k ==> ops[i] != Delete(tag)
    requires Accepted(Before(s, ops, k), ops[k], tag) && ops[k].ifMatch == Some(ETag(Before(s, ops, j)[tag]))
    ensures tag in Before(s, ops, k) && Before(s, ops, k)[tag] == Before(s, ops, j)[tag]
  {
    RevisionCountsWrites(s, ops, tag, j, k);
    AcceptedCarriesTag(s, ops, tag, k);
    EqualTagsEqualRevisions(Before(s, ops, j)[tag], Before(s, ops, k)[tag]);
  }

  /** Of any writers that hold the same ETag at most one is accepted, the manifest existing and no deletion
      coming between them. */
  lemma OneWriterPerTag(s: Contents, ops: seq<Op>, tag: string, j: nat, k: nat)
    requires j < k < |ops| && tag in Before(s, ops, j)
    requires forall i :: j <= i < k ==> ops[i] != Delete(tag)
    requires Accepted(Before(s, ops, j), ops[j], tag) && Accepted(Before(s, ops, k), ops[k], tag)
    ensures ops[j].ifMatch != ops[k].ifMatch
  {
    RevisionCountsWrites(s, ops, tag, j + 1, k);
    AcceptedCarriesTag(s, ops, tag, j);
    AcceptedCarriesTag(s, ops, tag, k);
    if ETag(Before(s, ops, j)[tag]) == ETag(Before(s, ops, k)[tag]) {
      EqualTagsEqualRevisions(Before(s, ops, j)[tag], Before(s, ops, k)[tag]);
    }
    hide Before, Writes, Accepted, ETag;
  }

  /** A write is refused exactly when the manifest exists and the ETag it carries, if any, is not the current
      one, as missing exactly when it carries none; an absent manifest is created whatever the caller sent. */
  lemma RefusedExactly(s: Contents, m: Manifest, ifMatch: Option<string>)
    ensures !Answer(s, m, ifMatch).Written? <==> m.tag in s && ifMatch != Some(ETag(s[m.tag]))
    ensures Answer(s, m, ifMatch) == MatchRequired <==> m.tag in s && ifMatch.None?
    ensures !Answer(s, m, ifMatch).Written? ==> AfterWrite(s, m, ifMatch) == s
    ensures m.tag !in s ==> AfterWrite(s, m, ifMatch) == s[m.tag := m]
  {
    hide ETag;
  }

  /** A write with the ETag of a version read before operation `j` is accepted as operation `k` exactly if the revision
      has come to the one that was read: that at some `g` since which there was no deletion, the re-creation say, plus
      the writes accepted from then on. */
  lemma OldTagAcceptedExactly(s: Contents, ops: seq<Op>, tag: string, j: nat, g: nat, k: nat)
    requires j <= k < |ops| && g <= k && tag in Before(s, ops, j)
    requires ops[k].Write? && ops[k].m.tag == tag && ops[k].ifMatch == Some(ETag(Before(s, ops, j)[tag]))
    requires tag in Before(s, ops, g) && forall i :: g <= i < k ==> ops[i] != Delete(tag)
    ensures var grown := Writes(s, ops, tag, k) - Writes(s, ops, tag, g);
            Accepted(Before(s, ops, k), ops[k], tag) <==>
            Before(s, ops, g)[tag].revision + grown == Before(s, ops, j)[tag].revision
    ensures g > 0 && tag !in Before(s, ops, g - 1) ==> ops[g - 1].Write? && Before(s, ops, g)[tag] == ops[g - 1].m
  {
    RevisionCountsWrites(s, ops, tag, g, k);
    RefusedExactly(Before(s, ops, k), ops[k].m, ops[k].ifMatch);
    if ETag(Before(s, ops, j)[tag]) == ETag(Before(s, ops, k)[tag]) {
      EqualTagsEqualRevisions(Before(s, ops, j)[tag], Before(s, ops, k)[tag]);
    }
    if g > 0 {
      NextContents(s, ops, g - 1);
    }
    hide After, Writes;
  }

  /** An accepted update replaces a manifest that its writer did not read exactly if there was a deletion since and the
      re-created manifest has come to the same revision with another content. */
  lemma UpdateLostExactly(s: Contents, ops: seq<Op>, tag: string, j: nat, k: nat)
    requires j <= k < |ops| && tag in Before(s, ops, j) && tag in Before(s, ops, k)
    requires ops[k].Write? && ops[k].m.tag == tag && ops[k].ifMatch == Some(ETag(Before(s, ops, j)[tag]))
    ensures var read, now := Before(s, ops, j)[tag], Before(s, ops, k)[tag];
            (Accepted(Before(s, ops, k), ops[k], tag) && now != read) <==>
            && (exists i :: j <= i < k && ops[i] == Delete(tag))
            && now.revision == read.revision && now != read
  {
    RefusedExactly(Before(s, ops, k), ops[k].m, ops[k].ifMatch);
    if Accepted(Before(s, ops, k), ops[k], tag) {
      EqualTagsEqualRevisions(Before(s, ops, j)[tag], Before(s, ops, k)[tag]);
      if forall i :: j <= i < k ==> ops[i] != Delete(tag) {
        NoLostUpdate(s, ops, tag, j, k);
      }
    }
    hide Before, Writes;
  }

  /** Across a deletion the revision restarts, and an update based on the old manifest is accepted over the new
      one. */
  lemma DeletionLosesUpdate(a: Manifest, b: Manifest, c: Manifest)
    requires a.tag == b.tag == c.tag && a.revision == b.revision && a != b
    ensures var s := map[a.tag := a];
            var ops := [Delete(a.tag), Write(b, None), Write(c, Some(ETag(a)))];
            && Accepted(Before(s, ops, 2), ops[2], a.tag)
            && Before(s, ops, 2)[a.tag] == b != Before(s, ops, 0)[a.tag]
  {
    var s := map[a.tag := a];
    var ops := [Delete(a.tag), Write(b, None), Write(c, Some(ETag(a)))];
    NextContents(s, ops, 0);
    NextContents(s, ops, 1);
  }
}
