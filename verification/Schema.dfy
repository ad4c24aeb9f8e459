/** The caller's response schema, walked twice: by the recursive checks of chat_completion.py and by the
    visitor of responseFormatValidator.ts. */
module Schema {
  import opened Wrappers
  import opened Json

  const MAX_DEPTH := 16
  const MAX_PROPERTIES := 64

  function Max(a: int, b: int): int {
    if a < b then b else a
  }

  /** The nesting of lists and dicts: 0 for a scalar or an empty container. */
  function Height(j: Json): nat
    decreases j, |Children(j)| + 1
  {
    HeightOver(j, |Children(j)|)
  }

  /** The height that the first `n` children give their parent. */
  function HeightOver(j: Json, n: nat): nat
    requires n <= |Children(j)|
    decreases j, n
  {
    if n == 0 then 0 else Max(HeightOver(j, n - 1), 1 + Height(Children(j)[n - 1]))
  }

  /** The property names a node declares itself. */
  function OwnProperties(j: Json): nat {
    var p := Get(j, "properties");
    if p.Some? && p.value.Object? then |p.value.members| else 0
  }

  predicate IsObjectSchema(j: Json) {
    Get(j, "type") == Some(Text("object"))
  }

  // ---- the server's recursion ----

  /** `_schema_depth`: the depth reached, cut off one past the cap. */
  function SchemaDepth(j: Json, depth: nat): nat
    decreases j, |Children(j)| + 1
  {
    if depth > MAX_DEPTH then depth else SchemaDepthOver(j, depth, |Children(j)|)
  }

  function SchemaDepthOver(j: Json, depth: nat, n: nat): nat
    requires n <= |Children(j)|
    decreases j, n
  {
    if n == 0 then depth else Max(SchemaDepthOver(j, depth, n - 1), SchemaDepth(Children(j)[n - 1], depth + 1))
  }

  function PropertyCount(j: Json): nat
    decreases j, |Children(j)| + 1
  {
    OwnProperties(j) + PropertyCountOver(j, |Children(j)|)
  }

  function PropertyCountOver(j: Json, n: nat): nat
    requires n <= |Children(j)|
    decreases j, n
  {
    if n == 0 then 0 else PropertyCountOver(j, n - 1) + PropertyCount(Children(j)[n - 1])
  }

  predicate HasRef(j: Json)
    decreases j
  {
    HasKey(j, "$ref") || exists i :: 0 <= i < |Children(j)| && HasRef(Children(j)[i])
  }

  predicate MissingGuard(j: Json)
    decreases j
  {
    || (IsObjectSchema(j) && !HasKey(j, "additionalProperties"))
    || exists i :: 0 <= i < |Children(j)| && MissingGuard(Children(j)[i])
  }

  // ---- what the recursions reach ----

  ghost predicate RefAt(j: Json, path: seq<nat>) {
    Follow(j, path).Some? && HasKey(Follow(j, path).value, "$ref")
  }

  /** A reference is found exactly if some path, through lists and dicts alike, leads to one. */
  lemma {:induction false} RefIsReached(j: Json)
    ensures HasRef(j) <==> exists path :: RefAt(j, path)
    decreases j
  {
    forall i | 0 <= i < |Children(j)| ensures HasRef(Children(j)[i]) <==> exists path :: RefAt(Children(j)[i], path) {
      RefIsReached(Children(j)[i]);
    }
    forall path | RefAt(j, path) ensures HasRef(j) {
      ChildrenAreNext(j, path);
      if path != [] {
        assert RefAt(Children(j)[path[0]], path[1..]);
      }
    }
    if HasRef(j) {
      if HasKey(j, "$ref") {
        assert RefAt(j, []);
      } else {
        var i :| 0 <= i < |Children(j)| && HasRef(Children(j)[i]);
        var path :| RefAt(Children(j)[i], path);
        ChildrenAreNext(j, [i] + path);
        assert ([i] + path)[1..] == path;
        assert RefAt(j, [i] + path);
      }
    }
  }

  ghost predicate GuardlessAt(j: Json, path: seq<nat>) {
    && Follow(j, path).Some?
    && var n := Follow(j, path).value; IsObjectSchema(n) && !HasKey(n, "additionalProperties")
  }

  /** A missing guard is found exactly if some path leads to an object schema without one. */
  lemma {:induction false} GuardIsReached(j: Json)
    ensures MissingGuard(j) <==> exists path :: GuardlessAt(j, path)
    decreases j
  {
    hide IsObjectSchema, HasKey;
    forall i | 0 <= i < |Children(j)|
      ensures MissingGuard(Children(j)[i]) <==> exists path :: GuardlessAt(Children(j)[i], path)
    {
      GuardIsReached(Children(j)[i]);
    }
    forall path | GuardlessAt(j, path) ensures MissingGuard(j) {
      ChildrenAreNext(j, path);
      if path != [] {
        assert GuardlessAt(Children(j)[path[0]], path[1..]);
      }
    }
    if MissingGuard(j) {
      if IsObjectSchema(j) && !HasKey(j, "additionalProperties") {
        assert GuardlessAt(j, []);
      } else {
        var i :| 0 <= i < |Children(j)| && MissingGuard(Children(j)[i]);
        var path :| GuardlessAt(Children(j)[i], path);
        ChildrenAreNext(j, [i] + path);
        assert ([i] + path)[1..] == path;
        assert GuardlessAt(j, [i] + path);
      }
    }
  }

  /** The height is the length of the longest path. */
  lemma {:induction false} HeightIsLongestPath(j: Json) returns (longest: seq<nat>)
    ensures Follow(j, longest).Some? && |longest| == Height(j)
    ensures forall path :: Follow(j, path).Some? ==> |path| <= Height(j)
    decreases j, |Children(j)| + 1
  {
    longest := LongestOver(j, |Children(j)|);
    forall path | Follow(j, path).Some? ensures |path| <= Height(j) {
      ChildrenAreNext(j, path);
    }
  }

  lemma {:induction false} LongestOver(j: Json, n: nat) returns (longest: seq<nat>)
    requires n <= |Children(j)|
    ensures Follow(j, longest).Some? && |longest| == HeightOver(j, n)
    ensures forall path :: path != [] && path[0] < n && Follow(j, path).Some? ==> |path| <= HeightOver(j, n)
    decreases j, n
  {
    longest := [];
    if n > 0 {
      longest := LongestOver(j, n - 1);
      var child := HeightIsLongestPath(Children(j)[n - 1]);
      var through := [n - 1] + child;
      ChildrenAreNext(j, through);
      assert through[1..] == child;
      forall path | path != [] && path[0] == n - 1 && Follow(j, path).Some?
        ensures |path| <= 1 + Height(Children(j)[n - 1])
      {
        ChildrenAreNext(j, path);
      }
      if |through| > |longest| {
        longest := through;
      }
    }
  }

  /** The names under "properties", if that is a dict. */
  function Names(properties: Json): nat {
    if properties.Object? then |properties.members| else 0
  }

  predicate FirstKey(members: seq<Member>, key: string, i: nat)
    requires i < |members|
  {
    members[i].key == key && forall h :: 0 <= h < i ==> members[h].key != key
  }

  /** The count of a list is that of its elements together; the count of a dict is that of its values, besides the names
      under its own "properties", the first key of that name. */
  lemma CountIsReached(j: Json)
    ensures j.Array? ==> PropertyCount(j) == Total(j.items)
    ensures j.Object? && !HasKey(j, "properties") ==> PropertyCount(j) == Total(Values(j.members))
    ensures j.Object? ==>
              forall i :: 0 <= i < |j.members| && FirstKey(j.members, "properties", i) ==>
                PropertyCount(j) == Names(j.members[i].value) + Total(Values(j.members))
  {
    TotalIs(j, |Children(j)|);
    assert Children(j)[..|Children(j)|] == Children(j);
    if j.Object? {
      forall i | 0 <= i < |j.members| && FirstKey(j.members, "properties", i)
        ensures Get(j, "properties") == Some(j.members[i].value)
      {
        FirstIsFound(j.members, "properties", i);
      }
    }
    hide Total, Values, Get, HasKey;
  }

  lemma {:induction false} FirstIsFound(members: seq<Member>, key: string, i: nat)
    requires i < |members| && FirstKey(members, key, i)
    ensures Lookup(members, key) == Some(members[i].value)
  {
    if i > 0 {
      assert members[0].key != key;
      FirstIsFound(members[1..], key, i - 1);
    }
  }

  function Values(members: seq<Member>): seq<Json> {
    if members == [] then [] else Values(members[..|members| - 1]) + [members[|members| - 1].value]
  }

  function Total(js: seq<Json>): nat {
    if js == [] then 0 else Total(js[..|js| - 1]) + PropertyCount(js[|js| - 1])
  }

  lemma {:induction false} TotalIs(j: Json, n: nat)
    requires n <= |Children(j)|
    ensures PropertyCountOver(j, n) == Total(Children(j)[..n])
    ensures j.Object? ==> Children(j) == Values(j.members)
    ensures j.Array? ==> Children(j) == j.items
    decreases n
  {
    if j.Object? {
      ValuesAre(j.members);
    }
    if n > 0 {
      TotalIs(j, n - 1);
      assert Children(j)[..n][..n - 1] == Children(j)[..n - 1];
    }
  }

  lemma {:induction false} ValuesAre(members: seq<Member>)
    ensures |Values(members)| == |members|
    ensures forall i :: 0 <= i < |members| ==> Values(members)[i] == members[i].value
  {
    if members != [] {
      ValuesAre(members[..|members| - 1]);
    }
  }

  datatype Reason = TooDeep | TooManyProperties | HasReference | NoGuard

  /** The server's four structural checks, in its order. */
  function ServerVerdict(j: Json): Option<Reason> {
    if SchemaDepth(j, 0) > MAX_DEPTH then Some(TooDeep)
    else if PropertyCount(j) > MAX_PROPERTIES then Some(TooManyProperties)
    else if HasRef(j) then Some(HasReference)
    else if MissingGuard(j) then Some(NoGuard)
    else None
  }

  /** The cut-off depth is the true height, or one past the cap for anything deeper. */
  lemma {:induction false} SchemaDepthIsHeight(j: Json, depth: nat)
    requires depth <= MAX_DEPTH + 1
    ensures SchemaDepth(j, depth) == if depth + Height(j) <= MAX_DEPTH then depth + Height(j) else MAX_DEPTH + 1
    decreases j, |Children(j)| + 1
  {
    if depth <= MAX_DEPTH {
      SchemaDepthOverIsHeight(j, depth, |Children(j)|);
    }
  }

  lemma {:induction false} SchemaDepthOverIsHeight(j: Json, depth: nat, n: nat)
    requires depth <= MAX_DEPTH && n <= |Children(j)|
    ensures SchemaDepthOver(j, depth, n)
         == if depth + HeightOver(j, n) <= MAX_DEPTH then depth + HeightOver(j, n) else MAX_DEPTH + 1
    decreases j, n
  {
    if n > 0 {
      SchemaDepthOverIsHeight(j, depth, n - 1);
      SchemaDepthIsHeight(Children(j)[n - 1], depth + 1);
    }
  }

  // ---- the client's loops ----

  /** `measureDepth`, whose top level counts as depth 1. */
  method MeasureDepth(j: Json, current: int) returns (max: int)
    ensures max == current + Height(j)
    decreases j
  {
    max := current;
    var kids := Children(j);
    for i := 0 to |kids|
      invariant max == current + HeightOver(j, i)
    {
      var d := MeasureDepth(kids[i], current + 1);
      max := if max < d then d else max;
    }
  }

  datatype Visitor = CountProperties | FindRef | FindMissingGuard

  /** The variable that each of the three visitors captures. */
  datatype Captured = Captured(total: nat, found: bool, missing: bool)

  /** What one visit does to it. The client's guard check asks for the literal `false`. */
  function Visited(v: Visitor, s: Captured, n: Json): Captured {
    match v
    case CountProperties => s.(total := s.total + OwnProperties(n))
    case FindRef => s.(found := s.found || HasKey(n, "$ref"))
    case FindMissingGuard =>
      s.(missing := s.missing || (IsObjectSchema(n) && Get(n, "additionalProperties") != Some(Bool(false))))
  }

  /** The captured variable after `walk`: the node first, then its children from left to right. */
  function Walked(v: Visitor, s: Captured, j: Json): Captured
    decreases j, |Children(j)| + 1
  {
    WalkedOver(v, Visited(v, s, j), j, |Children(j)|)
  }

  function WalkedOver(v: Visitor, s: Captured, j: Json, n: nat): Captured
    requires n <= |Children(j)|
    decreases j, n
  {
    if n == 0 then s else Walked(v, WalkedOver(v, s, j, n - 1), Children(j)[n - 1])
  }

  class Walker {
    var total: nat
    var found: bool
    var missing: bool

    function State(): Captured
      reads this
    {
      Captured(total, found, missing)
    }

    constructor ()
      ensures State() == Captured(0, false, false)
    {
      total, found, missing := 0, false, false;
    }

    method Visit(v: Visitor, n: Json)
      modifies this
      ensures State() == Visited(v, old(State()), n)
    {
      match v
      case CountProperties =>
        var props := Get(n, "properties");
        if props.Some? && props.value.Object? {
          total := total + |props.value.members|;
        }
      case FindRef =>
        if found {
          return;
        }
        if HasKey(n, "$ref") {
          found := true;
        }
      case FindMissingGuard =>
        if missing {
          return;
        }
        if IsObjectSchema(n) && Get(n, "additionalProperties") != Some(Bool(false)) {
          missing := true;
        }
    }

    method Walk(v: Visitor, node: Json)
      modifies this
      ensures State() == Walked(v, old(State()), node)
      decreases node
    {
      Visit(v, node);
      ghost var start := State();
      var kids := Children(node);
      for i := 0 to |kids|
        invariant State() == WalkedOver(v, start, node, i)
      {
        Walk(v, kids[i]);
      }
    }
  }

  /** A guard the client misses: an object schema whose additionalProperties is not literally false. */
  predicate LooseGuard(j: Json)
    decreases j
  {
    || (IsObjectSchema(j) && Get(j, "additionalProperties") != Some(Bool(false)))
    || exists i :: 0 <= i < |Children(j)| && LooseGuard(Children(j)[i])
  }

  ghost predicate LooseAt(j: Json, path: seq<nat>) {
    && Follow(j, path).Some?
    && var n := Follow(j, path).value; IsObjectSchema(n) && Get(n, "additionalProperties") != Some(Bool(false))
  }

  /** A loose guard is found exactly if some path leads to an object schema that has not the literal false. */
  lemma {:induction false} LooseGuardIsReached(j: Json)
    ensures LooseGuard(j) <==> exists path :: LooseAt(j, path)
    decreases j
  {
    hide IsObjectSchema, Get;
    forall i | 0 <= i < |Children(j)|
      ensures LooseGuard(Children(j)[i]) <==> exists path :: LooseAt(Children(j)[i], path)
    {
      LooseGuardIsReached(Children(j)[i]);
    }
    forall path | LooseAt(j, path) ensures LooseGuard(j) {
      ChildrenAreNext(j, path);
      if path != [] {
        assert LooseAt(Children(j)[path[0]], path[1..]);
      }
    }
    if LooseGuard(j) {
      if IsObjectSchema(j) && Get(j, "additionalProperties") != Some(Bool(false)) {
        assert LooseAt(j, []);
      } else {
        var i :| 0 <= i < |Children(j)| && LooseGuard(Children(j)[i]);
        var path :| LooseAt(Children(j)[i], path);
        ChildrenAreNext(j, [i] + path);
        assert ([i] + path)[1..] == path;
        assert LooseAt(j, [i] + path);
      }
    }
  }

  /** The visitor's total is the server's recursive sum. */
  lemma {:induction false} WalkCountsProperties(s: Captured, j: Json)
    ensures Walked(CountProperties, s, j) == s.(total := s.total + PropertyCount(j))
    decreases j, |Children(j)| + 1
  {
    WalkCountsPropertiesOver(s.(total := s.total + OwnProperties(j)), j, |Children(j)|);
  }

  lemma {:induction false} WalkCountsPropertiesOver(s: Captured, j: Json, n: nat)
    requires n <= |Children(j)|
    ensures WalkedOver(CountProperties, s, j, n) == s.(total := s.total + PropertyCountOver(j, n))
    decreases j, n
  {
    if n > 0 {
      WalkCountsPropertiesOver(s, j, n - 1);
      WalkCountsProperties(WalkedOver(CountProperties, s, j, n - 1), Children(j)[n - 1]);
    }
  }

  /** The visitor for `$ref` finds what the recursion finds. */
  lemma {:induction false} WalkFindsRef(s: Captured, j: Json)
    ensures Walked(FindRef, s, j) == s.(found := s.found || HasRef(j))
    decreases j, |Children(j)| + 1
  {
    WalkFindsRefOver(Visited(FindRef, s, j), j, |Children(j)|);
  }

  lemma {:induction false} WalkFindsRefOver(s: Captured, j: Json, n: nat)
    requires n <= |Children(j)|
    ensures WalkedOver(FindRef, s, j, n) == s.(found := s.found || exists i :: 0 <= i < n && HasRef(Children(j)[i]))
    decreases j, n
  {
    hide HasRef, Walked, Visited;
    if n > 0 {
      WalkFindsRefOver(s, j, n - 1);
      WalkFindsRef(WalkedOver(FindRef, s, j, n - 1), Children(j)[n - 1]);
    }
  }

  /** The visitor for the guard finds the loose guards. */
  lemma {:induction false} WalkFindsGuard(s: Captured, j: Json)
    ensures Walked(FindMissingGuard, s, j) == s.(missing := s.missing || LooseGuard(j))
    decreases j, |Children(j)| + 1
  {
    WalkFindsGuardOver(Visited(FindMissingGuard, s, j), j, |Children(j)|);
  }

  lemma {:induction false} WalkFindsGuardOver(s: Captured, j: Json, n: nat)
    requires n <= |Children(j)|
    ensures WalkedOver(FindMissingGuard, s, j, n)
         == s.(missing := s.missing || exists i :: 0 <= i < n && LooseGuard(Children(j)[i]))
    decreases j, n
  {
    hide LooseGuard, Walked, Visited;
    if n > 0 {
      WalkFindsGuardOver(s, j, n - 1);
      WalkFindsGuard(WalkedOver(FindMissingGuard, s, j, n - 1), Children(j)[n - 1]);
    }
  }

  /** The client's four checks in its order. */
  function ClientVerdict(j: Json): Option<Reason> {
    if 1 + Height(j) > MAX_DEPTH then Some(TooDeep)
    else if PropertyCount(j) > MAX_PROPERTIES then Some(TooManyProperties)
    else if HasRef(j) then Some(HasReference)
    else if LooseGuard(j) then Some(NoGuard)
    else None
  }

  /** What the three walks of a fresh variable leave in it. */
  lemma WalksAgree(j: Json)
    ensures var s := Captured(0, false, false);
            && Walked(CountProperties, s, j).total == PropertyCount(j)
            && Walked(FindRef, s, j).found == HasRef(j)
            && Walked(FindMissingGuard, s, j).missing == LooseGuard(j)
  {
    WalkCountsProperties(Captured(0, false, false), j);
    WalkFindsRef(Captured(0, false, false), j);
    WalkFindsGuard(Captured(0, false, false), j);
    hide Walked, PropertyCount, HasRef, LooseGuard;
  }

  /** `validateInnerSchema` from the depth check on. */
  method ValidateInnerSchema(j: Json) returns (r: Option<Reason>)
    ensures r == ClientVerdict(j)
  {
    hide Walked, PropertyCount, HasRef, LooseGuard, Height;
    WalksAgree(j);
    var depth := MeasureDepth(j, 1);
    if depth > MAX_DEPTH {
      return Some(TooDeep);
    }
    var counter := new Walker();
    counter.Walk(CountProperties, j);
    if counter.total > MAX_PROPERTIES {
      return Some(TooManyProperties);
    }
    var refs := new Walker();
    refs.Walk(FindRef, j);
    if refs.found {
      return Some(HasReference);
    }
    var guards := new Walker();
    guards.Walk(FindMissingGuard, j);
    return if guards.missing then Some(NoGuard) else None;
  }

  /** A node without the key has no literal false under it either. */
  lemma {:induction false} LooseGuardCovers(j: Json)
    ensures MissingGuard(j) ==> LooseGuard(j)
    decreases j
  {
    forall i | 0 <= i < |Children(j)| ensures MissingGuard(Children(j)[i]) ==> LooseGuard(Children(j)[i]) {
      LooseGuardCovers(Children(j)[i]);
    }
  }

  function Rank(r: Reason): nat {
    match r
    case TooDeep => 0
    case TooManyProperties => 1
    case HasReference => 2
    case NoGuard => 3
  }

  /** A schema that passes the client passes the server, and what the client refuses beyond that is exactly a
      height of 16, which its depth counts as 17, and a guard that is there but not literally false. Where
      both refuse, the client names the server's rule or an earlier one. */
  lemma ClientRefusesNoLess(j: Json)
    ensures ClientVerdict(j).None? <==> ServerVerdict(j).None? && Height(j) != MAX_DEPTH && !LooseGuard(j)
    ensures ServerVerdict(j).Some? ==>
              ClientVerdict(j).Some? && Rank(ClientVerdict(j).value) <= Rank(ServerVerdict(j).value)
  {
    SchemaDepthIsHeight(j, 0);
    LooseGuardCovers(j);
    hide SchemaDepth, PropertyCount, HasRef, MissingGuard, LooseGuard, Height;
  }

  /** The client does refuse a schema the server accepts: one object schema whose guard is `true`. */
  lemma ClientRefusesMore()
    ensures var j := Object([Member("type", Text("object")), Member("additionalProperties", Bool(true))]);
            ServerVerdict(j).None? && ClientVerdict(j) == Some(NoGuard)
  {
    var ms := [Member("type", Text("object")), Member("additionalProperties", Bool(true))];
    var j := Object(ms);
    assert Children(j) == [Text("object"), Bool(true)];
    assert ms[0].key == "type" && ms[1].key == "additionalProperties";
    assert ms[1..] == [ms[1]] && ms[1..][1..] == [];
    assert Get(j, "type") == Some(Text("object")) && Get(j, "additionalProperties") == Some(Bool(true));
    assert Get(j, "properties") == None && !HasKey(j, "$ref");
    forall k | k in Children(j)
      ensures Children(k) == [] && Height(k) == 0 && PropertyCount(k) == 0 && !HasRef(k) && !MissingGuard(k)
                && !LooseGuard(k)
    {
      assert k == Text("object") || k == Bool(true);
    }
    SchemaDepthIsHeight(j, 0);
    assert HeightOver(j, 0) == 0 && HeightOver(j, 1) == 1;
    assert PropertyCountOver(j, 0) == 0 && PropertyCountOver(j, 1) == 0;
  }
}
