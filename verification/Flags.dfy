/** llama-server flags of manifest.py: the validator, the argv printer, and a reader that takes each flag's
    arity from the allowlist. */
module Flags {
  import opened Wrappers
  import opened Text

  /** What the allowlist says of a key: its type, with the bounds or the enum that apply to it. FlashKind,
      LayersKind and TemplateKind are the keys flash_attn, n_gpu_layers and chat_template. */
  datatype Kind =
    | BoolKind
    | IntKind(lo: Option<int>, hi: Option<int>)
    | FloatKind(flo: Option<real>, fhi: Option<real>)
    | StrKind
    | EnumKind(names: set<string>)
    | FlashKind
    | LayersKind(llo: Option<int>, lhi: Option<int>)
    | TemplateKind(builtin: set<string>)

  /** A flag's value as YAML gives it; a float carries the text Python prints for it. */
  datatype FlagValue = B(b: bool) | I(n: int) | F(x: real, text: string) | S(s: string)

  datatype Flag = Flag(key: string, value: FlagValue)

  type Allowlist = map<string, Kind>

  // ---- validation ----

  const FLASH_ATTN_NAMES := {"on", "off", "auto", "enabled", "disabled"}
  const N_GPU_LAYERS_NAMES := {"all", "auto"}

  function LowerChar(c: char): char {
    if 'A' <= c <= 'Z' then (c as int + 32) as char else c
  }

  function Lower(s: string): string {
    seq(|s|, i requires 0 <= i < |s| => LowerChar(s[i]))
  }

  predicate InBounds(x: int, lo: Option<int>, hi: Option<int>) {
    (lo.Some? ==> lo.value <= x) && (hi.Some? ==> x <= hi.value)
  }

  predicate InRealBounds(x: real, lo: Option<real>, hi: Option<real>) {
    (lo.Some? ==> lo.value <= x) && (hi.Some? ==> x <= hi.value)
  }

  predicate HasJinja(s: string) {
    exists i :: 0 <= i < |s| - 1 && s[i] == '{' && (s[i + 1] == '%' || s[i + 1] == '{')
  }

  predicate AreNameChars(s: string) {
    |s| > 0 && forall i :: 0 <= i < |s| ==>
      '0' <= s[i] <= '9' || 'a' <= s[i] <= 'z' || 'A' <= s[i] <= 'Z' || s[i] in "_.-"
  }

  /** The pattern of a plain name; its `$` also matches before one newline at the end. */
  predicate IsPlainName(s: string) {
    AreNameChars(s) || (s != "" && s[|s| - 1] == '\n' && AreNameChars(s[..|s| - 1]))
  }

  /** `_validate_flag_value`. A bool is never taken for a number; an int may stand for a float. */
  predicate ValidValue(kind: Kind, v: FlagValue) {
    match kind
    case BoolKind => v.B?
    case IntKind(lo, hi) => v.I? && InBounds(v.n, lo, hi)
    case FloatKind(lo, hi) => (v.F? && InRealBounds(v.x, lo, hi)) || (v.I? && InRealBounds(v.n as real, lo, hi))
    case StrKind => v.S?
    case EnumKind(names) => v.S? && v.s in names
    case FlashKind => v.B? || (v.S? && Lower(v.s) in FLASH_ATTN_NAMES)
    case LayersKind(lo, hi) => (v.I? && InBounds(v.n, lo, hi)) || (v.S? && Lower(v.s) in N_GPU_LAYERS_NAMES)
    case TemplateKind(builtin) =>
      v.S? && !HasJinja(v.s) && (v.s in builtin || (|v.s| <= 256 && IsPlainName(v.s)))
  }

  /** The manifest's own check: every key allowed and not denied, every value valid. */
  predicate Validated(flags: seq<Flag>, allow: Allowlist, denied: set<string>) {
    forall f :: f in flags ==> f.key in allow && f.key !in denied && ValidValue(allow[f.key], f.value)
  }

  // ---- printing ----

  /** `str(value)`. */
  function Shown(v: FlagValue): string {
    match v
    case B(b) => if b then "True" else "False"
    case I(n) => if n < 0 then "-" + Decimal(-n) else Decimal(n)
    case F(_, text) => text
    case S(s) => s
  }

  function Dashed(key: string): string {
    seq(|key|, i requires 0 <= i < |key| => if key[i] == '_' then '-' else key[i])
  }

  function CliKey(key: string): string {
    "--" + Dashed(key)
  }

  /** What one flag adds to the argv. */
  function Arguments(kind: Kind, f: Flag): seq<string> {
    var cli := CliKey(f.key);
    if kind.FlashKind? then
      if f.value.B? then [cli, if f.value.b then "on" else "off"] else [cli, Lower(Shown(f.value))]
    else if f.value.B? then (if f.value.b then [cli] else [])
    else [cli, Shown(f.value)]
  }

  /** `flags_to_argv`; None is the error for a key that is not allowed. */
  function Argv(flags: seq<Flag>, allow: Allowlist, denied: set<string>): Option<seq<string>> {
    if flags == [] then Some([])
    else
      var last := flags[|flags| - 1];
      var front := Argv(flags[..|flags| - 1], allow, denied);
      if front.None? || last.key !in allow || last.key in denied then None
      else Some(front.value + Arguments(allow[last.key], last))
  }

  method FlagsToArgv(flags: seq<Flag>, allow: Allowlist, denied: set<string>) returns (r: Option<seq<string>>)
    ensures r == Argv(flags, allow, denied)
  {
    var argv: seq<string> := [];
    for i := 0 to |flags|
      invariant Argv(flags[..i], allow, denied) == Some(argv)
    {
      assert flags[..i + 1][..i] == flags[..i];
      var key, value := flags[i].key, flags[i].value;
      if key !in allow || key in denied {
        Blocked(flags, i + 1, allow, denied);
        return None;
      }
      ghost var before := argv;
      if allow[key].FlashKind? {
        if value.B? {
          argv := argv + [CliKey(key), if value.b then "on" else "off"];
        } else {
          argv := argv + [CliKey(key), Lower(Shown(value))];
        }
      } else if value.B? {
        if value.b {
          argv := argv + [CliKey(key)];
        }
      } else {
        argv := argv + [CliKey(key), Shown(value)];
      }
      assert argv == before + Arguments(allow[key], flags[i]);
      hide Arguments;
    }
    assert flags[..|flags|] == flags;
    return Some(argv);
  }

  /** An error stays an error. */
  lemma {:induction false} Blocked(flags: seq<Flag>, n: nat, allow: Allowlist, denied: set<string>)
    requires n <= |flags| && Argv(flags[..n], allow, denied).None?
    ensures Argv(flags, allow, denied).None?
    decreases |flags|
  {
    if n == |flags| {
      assert flags[..n] == flags;
    } else {
      var front := flags[..|flags| - 1];
      assert front[..n] == flags[..n];
      Blocked(front, n, allow, denied);
    }
  }

  // ---- reading back ----

  /** A flag as read from an argv: its key, and its value unless it takes none. */
  datatype Parsed = Parsed(key: string, value: Option<string>)

  function Undashed(cli: string): string {
    if |cli| < 2 then "" else seq(|cli| - 2, i requires 0 <= i < |cli| - 2 => if cli[i + 2] == '-'
        then '_' else cli[i + 2])
  }

  /** A bool flag takes no value, every other flag takes the next argument, whatever it looks like. */
  function Read(argv: seq<string>, allow: Allowlist): Option<seq<Parsed>>
    decreases |argv|
  {
    if argv == [] then Some([])
    else
      var key := Undashed(argv[0]);
      if key !in allow || argv[0] != CliKey(key) then None
      else if allow[key].BoolKind? then
        match Read(argv[1..], allow)
        case None => None
        case Some(rest) => Some([Parsed(key, None)] + rest)
      else if |argv| < 2 then None
      else
        match Read(argv[2..], allow)
        case None => None
        case Some(rest) => Some([Parsed(key, Some(argv[1]))] + rest)
  }

  /** What one flag is meant to be read back as: nothing if it is False. */
  function MeantOne(f: Flag, allow: Allowlist): seq<Parsed> {
    if f.key in allow && allow[f.key].FlashKind? then
      [Parsed(f.key, Some(if f.value == B(true) then "on" else if f.value == B(false)
          then "off" else Lower(Shown(f.value))))]
    else if f.value == B(true) then [Parsed(f.key, None)]
    else if f.value == B(false) then []
    else [Parsed(f.key, Some(Shown(f.value)))]
  }

  function Meant(flags: seq<Flag>, allow: Allowlist): seq<Parsed> {
    if flags == [] then [] else MeantOne(flags[0], allow) + Meant(flags[1..], allow)
  }

  lemma KeyReadsBack(key: string)
    requires '-' !in key
    ensures Undashed(CliKey(key)) == key
  {
    assert |CliKey(key)| == |key| + 2 && |Undashed(CliKey(key))| == |key|;
    var cli, back := CliKey(key), Undashed(CliKey(key));
    forall i | 0 <= i < |key| ensures back[i] == key[i] {
      assert cli[i + 2] == Dashed(key)[i];
      assert key[i] in key;
    }
    hide CliKey, Undashed, Dashed;
    assert back == key;
  }

  /** The arguments from the front of the flags, as the reader meets them. */
  function ArgvFrom(flags: seq<Flag>, allow: Allowlist): seq<string>
    requires forall f :: f in flags ==> f.key in allow
  {
    if flags == [] then [] else Arguments(allow[flags[0].key], flags[0]) + ArgvFrom(flags[1..], allow)
  }

  lemma {:induction false} ArgvFromAppend(flags: seq<Flag>, last: Flag, allow: Allowlist)
    requires last.key in allow && forall f :: f in flags ==> f.key in allow
    ensures ArgvFrom(flags + [last], allow) == ArgvFrom(flags, allow) + Arguments(allow[last.key], last)
  {
    if flags == [] {
      assert ([last])[1..] == [];
    } else {
      assert (flags + [last])[1..] == flags[1..] + [last];
      ArgvFromAppend(flags[1..], last, allow);
      hide Arguments;
    }
  }

  /** A list of allowed keys prints, and to the concatenation of its flags' arguments. */
  lemma {:induction false} ArgvIs(flags: seq<Flag>, allow: Allowlist, denied: set<string>)
    ensures Argv(flags, allow, denied).Some? <==> forall f :: f in flags ==> f.key in allow && f.key !in denied
    ensures Argv(flags, allow, denied).Some? ==> Argv(flags, allow, denied).value == ArgvFrom(flags, allow)
  {
    if flags != [] {
      var front, last := flags[..|flags| - 1], flags[|flags| - 1];
      ArgvIs(front, allow, denied);
      assert flags == front + [last];
      if last.key in allow && forall f :: f in front ==> f.key in allow {
        ArgvFromAppend(front, last, allow);
      }
      hide Arguments, ArgvFrom;
    }
  }

  lemma {:induction false} ReadsBack(flags: seq<Flag>, allow: Allowlist, denied: set<string>)
    requires Validated(flags, allow, denied) && forall k :: k in allow ==> '-' !in k
    ensures Read(ArgvFrom(flags, allow), allow) == Some(Meant(flags, allow))
  {
    if flags != [] {
      var f, rest := flags[0], ArgvFrom(flags[1..], allow);
      assert f in flags;
      ReadsBack(flags[1..], allow, denied);
      KeyReadsBack(f.key);
      ReadOne(f, allow, rest);
      hide Read, ValidValue, Arguments;
    }
  }

  /** Reading past one validated flag. */
  lemma ReadOne(f: Flag, allow: Allowlist, rest: seq<string>)
    requires f.key in allow && ValidValue(allow[f.key], f.value) && Undashed(CliKey(f.key)) == f.key
    requires Read(rest, allow).Some?
    ensures Read(Arguments(allow[f.key], f) + rest, allow) == Some(MeantOne(f, allow) + Read(rest, allow).value)
  {
    var args := Arguments(allow[f.key], f);
    hide CliKey, Undashed, Shown, Lower;
    if |args| == 1 {
      assert (args + rest)[1..] == rest;
    } else if |args| == 2 {
      assert (args + rest)[2..] == rest;
    } else {
      assert args + rest == rest && MeantOne(f, allow) == [];
      assert [] + Read(rest, allow).value == Read(rest, allow).value;
    }
  }

  // ---- the values read back ----

  lemma IntReadsBack(n: int)
    ensures IntValue(Shown(I(n))) == n
  {
    if n < 0 {
      DecimalReadsBack(-n);
      assert ("-" + Decimal(-n))[1..] == Decimal(-n);
    } else {
      DecimalReadsBack(n);
      DecimalStartsWithDigit(n);
    }
    hide Decimal, DecimalValue;
  }

  /** The same letters, none of them a capital. */
  predicate IsLowerOf(low: string, s: string) {
    |low| == |s| && forall i :: 0 <= i < |s| ==>
      !('A' <= low[i] <= 'Z') && (low[i] == s[i] || (low[i] as int == s[i] as int + 32 && 'A' <= s[i] <= 'Z'))
  }

  /** What was read is the flag's key and value: an int its number, a string itself, a float its text; True stands
      without a value, but as on or off under flash_attn, whose names come in lower case. */
  predicate ReadsAs(kind: Kind, f: Flag, p: Parsed) {
    && p.key == f.key
    && match f.value
       case B(b) => if kind.FlashKind? then p.value == Some(if b then "on" else "off") else b && p.value.None?
       case I(n) => p.value.Some? && IntValue(p.value.value) == n
       case F(_, text) => p.value == Some(text)
       case S(s) => p.value.Some? && if kind.FlashKind? then IsLowerOf(p.value.value, s) else p.value.value == s
  }

  /** The flags that the argv has to carry: all but those that are False, where that means to leave them out. */
  function Carried(flags: seq<Flag>, allow: Allowlist): seq<Flag>
    requires forall f :: f in flags ==> f.key in allow
  {
    if flags == [] then []
    else (if flags[0].value == B(false) && !allow[flags[0].key].FlashKind? then [] else [flags[0]])
         + Carried(flags[1..], allow)
  }

  lemma LowerIs(s: string)
    ensures IsLowerOf(Lower(s), s)
  {
  }

  lemma MeantReadsAs(f: Flag, allow: Allowlist)
    requires f.key in allow && ValidValue(allow[f.key], f.value)
    ensures MeantOne(f, allow) == [] <==> f.value == B(false) && !allow[f.key].FlashKind?
    ensures MeantOne(f, allow) != [] ==> |MeantOne(f, allow)| == 1 && ReadsAs(allow[f.key], f, MeantOne(f, allow)[0])
  {
    if f.value.I? {
      IntReadsBack(f.value.n);
      hide Shown;
    } else if f.value.S? {
      LowerIs(f.value.s);
    }
    hide Lower, IsLowerOf, Decimal;
  }

  lemma {:induction false} MeantIsCarried(flags: seq<Flag>, allow: Allowlist, denied: set<string>)
    requires Validated(flags, allow, denied)
    ensures var carried, meant := Carried(flags, allow), Meant(flags, allow);
            && |carried| == |meant|
            && forall i :: 0 <= i < |carried| ==>
                 carried[i] in flags && ReadsAs(allow[carried[i].key], carried[i], meant[i])
  {
    if flags != [] {
      assert flags[0] in flags;
      MeantIsCarried(flags[1..], allow, denied);
      MeantReadsAs(flags[0], allow);
      hide ReadsAs, MeantOne, ValidValue;
    }
  }

  /** Round trip: for every validated flag map the printer succeeds, and reading its argv with the arities of the
      allowlist gives back exactly the flags it has to carry, in order, each with its key and its value; no value is
      mistaken for a flag. */
  lemma PrintedFlagsReadBack(flags: seq<Flag>, allow: Allowlist, denied: set<string>)
    requires Validated(flags, allow, denied) && forall k :: k in allow ==> '-' !in k
    ensures Argv(flags, allow, denied).Some?
    ensures var read, carried := Read(Argv(flags, allow, denied).value, allow), Carried(flags, allow);
            && read.Some? && |read.value| == |carried|
            && forall i :: 0 <= i < |carried| ==>
                 carried[i].key in allow && ReadsAs(allow[carried[i].key], carried[i], read.value[i])
  {
    ArgvIs(flags, allow, denied);
    ReadsBack(flags, allow, denied);
    MeantIsCarried(flags, allow, denied);
    hide ReadsAs, Read, Argv, Meant, ValidValue;
  }

  /** What the server may rely on when it reads a flag of each kind: numbers within the bounds, names of the enum, and
      no template that starts a statement or an expression. */
  ghost predicate Reliable(kind: Kind, value: Option<string>) {
    match kind
    case BoolKind => value.None?
    case IntKind(lo, hi) => value.Some? && Within(IntValue(value.value), lo, hi)
    case FloatKind(_, _) => value.Some?
    case StrKind => value.Some?
    case EnumKind(names) => value.Some? && value.value in names
    case FlashKind => value.Some? && value.value in FLASH_ATTN_NAMES
    case LayersKind(lo, hi) =>
      value.Some? && (Within(IntValue(value.value), lo, hi) ||
                      exists name :: name in N_GPU_LAYERS_NAMES && IsLowerOf(name, value.value))
    case TemplateKind(builtin) =>
      && value.Some? && (value.value in builtin || |value.value| <= 256)
      && forall i :: 0 <= i < |value.value| - 1 ==> value.value[i] == '{' ==> value.value[i + 1] !in "%{"
  }

  predicate Within(x: int, lo: Option<int>, hi: Option<int>) {
    (lo.Some? ==> x >= lo.value) && (hi.Some? ==> x <= hi.value)
  }

  /** Every value that a validated map puts into the argv is one the server may rely on. */
  lemma ReadValuesAreReliable(kind: Kind, f: Flag, p: Parsed)
    requires ValidValue(kind, f.value) && ReadsAs(kind, f, p)
    ensures Reliable(kind, p.value)
  {
    hide IntValue;
    if kind.FlashKind? && f.value.S? {
      LowerIs(f.value.s);
      assert p.value.value == Lower(f.value.s);
    }
    if kind.LayersKind? && f.value.S? {
      LowerIs(f.value.s);
    }
  }

  /** Without the validator the round trip fails: a number under a bool flag is printed as an argument that
      the reader takes for a flag. */
  lemma UnvalidatedDoesNotReadBack(allow: Allowlist)
    requires "metrics" in allow && allow["metrics"] == BoolKind
    ensures var argv := Argv([Flag("metrics", I(1))], allow, {});
            argv.Some? && Read(argv.value, allow).None?
  {
    var flags := [Flag("metrics", I(1))];
    assert flags[..0] == [];
    assert Argv(flags[..0], allow, {}) == Some([]);
    var argv := Argv(flags, allow, {}).value;
    assert argv == [CliKey("metrics"), "1"];
    KeyReadsBack("metrics");
    assert argv[1..] == ["1"];
    assert argv[1..][0] != CliKey(Undashed("1"));
  }
}
