/**
 The convention version checker: parsing of version strings, the diff of two
 declarations, and which version bumps are acceptable for it.
 */
module Versioning {
  import opened Wrappers

  // ----- Version strings -----

  const MAX_INT: nat := 0x7FFF_FFFF_FFFF_FFFF   // math.MaxInt on a 64-bit platform

  datatype Version = Version(major: nat, minor: nat, patch: nat)

  predicate IsDigit(c: char) {
    '0' <= c <= '9'
  }

  function DigitValue(c: char): nat
    requires IsDigit(c)
  {
    c as int - '0' as int
  }

  predicate IsNumeral(p: string) {
    p != "" && forall i :: 0 <= i < |p| ==> IsDigit(p[i])
  }

  /** The number a digit string denotes, without any bound. */
  function Value(p: string): nat
    requires forall i :: 0 <= i < |p| ==> IsDigit(p[i])
    decreases |p|
  {
    if p == "" then 0 else 10 * Value(p[..|p| - 1]) + DigitValue(p[|p| - 1])
  }

  /** strings.Split(v, "."). */
  function SplitDots(v: string): (parts: seq<string>)
    ensures |parts| >= 1
  {
    if v == "" then [""]
    else
      var rest := SplitDots(v[1..]);
      if v[0] == '.' then [""] + rest else [[v[0]] + rest[0]] + rest[1..]
  }

  predicate Component(p: string) {
    IsNumeral(p) && Value(p) <= MAX_INT
  }

  /** The version a string denotes: one to three decimal components, each fitting an int, missing ones 0. */
  function Semver(v: string): Option<Version> {
    var parts := SplitDots(v);
    if v == "" || |parts| > 3 || exists i :: 0 <= i < |parts| && !Component(parts[i]) then None
    else Some(Version(Value(parts[0]),
                      if |parts| > 1 then Value(parts[1]) else 0,
                      if |parts| > 2 then Value(parts[2]) else 0))
  }

  lemma ValueOnlyGrows(p: string, k: nat)
    requires k <= |p| && forall i :: 0 <= i < |p| ==> IsDigit(p[i])
    ensures Value(p[..k]) <= Value(p)
    decreases |p|
  {
    if k < |p| {
      assert p[..|p| - 1][..k] == p[..k];
      ValueOnlyGrows(p[..|p| - 1], k);
    } else {
      assert p[..k] == p;
    }
  }

  /** parseSemver's inner loop. Its guard refuses a digit exactly when the value would no longer fit. */
  method ParseComponent(p: string) returns (r: Option<nat>)
    ensures r == if Component(p) then Some(Value(p)) else None
  {
    if p == "" {
      return None;
    }
    var n := 0;
    for i := 0 to |p|
      invariant forall j :: 0 <= j < i ==> IsDigit(p[j])
      invariant n == Value(p[..i]) <= MAX_INT
    {
      var c := p[i];
      if c < '0' || c > '9' {
        return None;
      }
      var digit := c as int - '0' as int;
      assert p[..i + 1][..i] == p[..i];
      if n > (MAX_INT - digit) / 10 {
        if IsNumeral(p) {
          ValueOnlyGrows(p, i + 1);
        }
        return None;
      }
      n := n * 10 + digit;
    }
    assert p[..|p|] == p;
    return Some(n);
  }

  method ParseSemver(v: string) returns (r: Option<Version>)
    ensures r == Semver(v)
  {
    if v == "" {
      return None;
    }
    var parts := SplitDots(v);
    if |parts| > 3 {
      return None;
    }
    var vals := [0, 0, 0];
    for i := 0 to |parts|
      invariant |vals| == 3
      invariant forall j :: 0 <= j < i ==> Component(parts[j]) && vals[j] == Value(parts[j])
      invariant forall j :: i <= j < 3 ==> vals[j] == 0
    {
      var n := ParseComponent(parts[i]);
      if n.None? {
        return None;
      }
      vals := vals[i := n.value];
    }
    return Some(Version(vals[0], vals[1], vals[2]));
  }

  function Decimal(n: nat): string {
    if n < 10 then [('0' as int + n) as char] else Decimal(n / 10) + [('0' as int + n % 10) as char]
  }

  function Format(v: Version): string {
    Decimal(v.major) + "." + Decimal(v.minor) + "." + Decimal(v.patch)
  }

  lemma {:induction false} DecimalIsNumeral(n: nat)
    ensures IsNumeral(Decimal(n)) && Value(Decimal(n)) == n
  {
    if n >= 10 {
      DecimalIsNumeral(n / 10);
      assert Decimal(n)[..|Decimal(n)| - 1] == Decimal(n / 10);
    } else {
      assert Decimal(n)[..0] == "";
    }
  }

  lemma {:induction false} SplitAtDot(a: string, rest: string)
    requires '.' !in a
    ensures SplitDots(a + "." + rest) == [a] + SplitDots(rest)
    decreases |a|
  {
    if a == "" {
      assert (a + "." + rest)[1..] == rest;
    } else {
      assert (a + "." + rest)[1..] == a[1..] + "." + rest;
      SplitAtDot(a[1..], rest);
      assert [a[0]] + a[1..] == a;
    }
  }

  lemma {:induction false} SplitNoDot(a: string)
    requires '.' !in a
    ensures SplitDots(a) == [a]
    decreases |a|
  {
    if a != "" {
      SplitNoDot(a[1..]);
      assert [a[0]] + a[1..] == a;
    }
  }

  /** Formatting and parsing round-trip exactly on the versions whose components fit an int. */
  lemma FormatThenParse(v: Version)
    ensures Semver(Format(v)) ==
            if v.major <= MAX_INT && v.minor <= MAX_INT && v.patch <= MAX_INT then Some(v) else None
  {
    DecimalIsNumeral(v.major);
    DecimalIsNumeral(v.minor);
    DecimalIsNumeral(v.patch);
    assert Format(v) == Decimal(v.major) + "." + (Decimal(v.minor) + "." + Decimal(v.patch));
    SplitAtDot(Decimal(v.major), Decimal(v.minor) + "." + Decimal(v.patch));
    SplitAtDot(Decimal(v.minor), Decimal(v.patch));
    SplitNoDot(Decimal(v.patch));
    var parts := SplitDots(Format(v));
    assert parts == [Decimal(v.major), Decimal(v.minor), Decimal(v.patch)];
    assert Component(parts[0]) <==> v.major <= MAX_INT;
    assert Component(parts[1]) <==> v.minor <= MAX_INT;
    assert Component(parts[2]) <==> v.patch <= MAX_INT;
  }

  /** The same for the two shorter forms: what is left out denotes 0. */
  lemma ShortFormsParse(major: nat, minor: nat)
    ensures Semver(Decimal(major)) == if major <= MAX_INT then Some(Version(major, 0, 0)) else None
    ensures Semver(Decimal(major) + "." + Decimal(minor)) ==
            if major <= MAX_INT && minor <= MAX_INT then Some(Version(major, minor, 0)) else None
  {
    DecimalIsNumeral(major);
    DecimalIsNumeral(minor);
    SplitNoDot(Decimal(major));
    SplitNoDot(Decimal(minor));
    SplitAtDot(Decimal(major), Decimal(minor));
    var one, two := SplitDots(Decimal(major)), SplitDots(Decimal(major) + "." + Decimal(minor));
    assert one == [Decimal(major)] && two == [Decimal(major), Decimal(minor)];
    assert Component(one[0]) <==> major <= MAX_INT;
    assert Component(two[0]) <==> major <= MAX_INT;
    assert Component(two[1]) <==> minor <= MAX_INT;
  }

  function Join(parts: seq<string>): string
    requires parts != []
  {
    if |parts| == 1 then parts[0] else parts[0] + "." + Join(parts[1..])
  }

  /** Splitting loses nothing and leaves no dot, so every string is read component by component. */
  lemma {:induction false} SplitThenJoin(v: string)
    ensures Join(SplitDots(v)) == v && forall p :: p in SplitDots(v) ==> '.' !in p
  {
    if v != "" {
      SplitThenJoin(v[1..]);
      var rest, parts := SplitDots(v[1..]), SplitDots(v);
      assert rest[0] in rest;
      if v[0] == '.' {
        assert parts[1..] == rest;
      } else {
        assert parts[1..] == rest[1..];
      }
      assert [v[0]] + v[1..] == v;
    }
  }

  /** So exactly one to three numerals with dots between them parse, each small enough for an int. */
  lemma ParsesExactly(v: string)
    ensures Semver(v).Some? <==> exists parts :: Spelled(v, parts)
  {
    SplitThenJoin(v);
    if Semver(v).Some? {
      assert Spelled(v, SplitDots(v));
    }
    if parts :| Spelled(v, parts) {
      SplitOfJoin(parts);
      assert parts[0] != "" && (v == parts[0] || v == parts[0] + "." + Join(parts[1..]));
    }
  }

  ghost predicate Spelled(v: string, parts: seq<string>) {
    && 1 <= |parts| <= 3 && v == Join(parts)
    && forall i :: 0 <= i < |parts| ==> IsNumeral(parts[i]) && Value(parts[i]) <= MAX_INT
  }

  lemma {:induction false} SplitOfJoin(parts: seq<string>)
    requires parts != [] && forall i :: 0 <= i < |parts| ==> '.' !in parts[i]
    ensures SplitDots(Join(parts)) == parts
  {
    if |parts| == 1 {
      SplitNoDot(parts[0]);
    } else {
      SplitOfJoin(parts[1..]);
      SplitAtDot(parts[0], Join(parts[1..]));
    }
  }

  // ----- Declarations and their diff -----

  datatype Arg = Arg(name: string, kind: string, required: bool)
  datatype Decl = Decl(convention: string, version: string, operation: string, args: seq<Arg>)

  datatype BreakingChange =
    | ConventionChanged
    | OperationChanged
    | ArgRemoved(name: string)
    | ArgRequiredToOptional(name: string)
    | ArgOptionalToRequired(name: string)
    | ArgAddedRequired(name: string)

  datatype VersionKind = NoChange | Patch | Minor | Major

  datatype DiffResult = DiffResult(oldVersion: string, newVersion: string, kind: VersionKind,
                                   breaking: seq<BreakingChange>, additions: seq<string>, deprecations: set<string>)

  /** The required flag of each arg name; of several entries with one name the last one wins. */
  function ByName(args: seq<Arg>): map<string, bool>
    decreases |args|
  {
    if args == [] then map[]
    else ByName(args[..|args| - 1])[args[|args| - 1].name := args[|args| - 1].required]
  }

  lemma {:induction false} ByNameIsALastEntry(args: seq<Arg>, name: string)
    ensures name in ByName(args) <==> exists i :: 0 <= i < |args| && args[i].name == name
    ensures name in ByName(args) ==>
            exists i :: 0 <= i < |args| && args[i].name == name && args[i].required == ByName(args)[name]
    decreases |args|
  {
    if args != [] {
      var init := args[..|args| - 1];
      ByNameIsALastEntry(init, name);
      assert forall i :: 0 <= i < |init| ==> init[i] == args[i];
    }
  }

  /** Of several entries with one name, the last one is the one indexed. */
  lemma {:induction false} LastEntryWins(args: seq<Arg>, i: nat)
    requires i < |args| && forall k :: i < k < |args| ==> args[k].name != args[i].name
    ensures args[i].name in ByName(args) && ByName(args)[args[i].name] == args[i].required
    decreases |args|
  {
    if i < |args| - 1 { LastEntryWins(args[..|args| - 1], i); }
  }

  method IndexByName(args: seq<Arg>) returns (m: map<string, bool>)
    ensures m == ByName(args)
  {
    m := map[];
    for i := 0 to |args|
      invariant m == ByName(args[..i])
    {
      assert args[..i + 1][..i] == args[..i];
      m := m[args[i].name := args[i].required];
    }
    assert args[..|args|] == args;
  }

  /** What an arg of the old declaration contributes to the breaking changes. */
  predicate OldArgBreaks(a: Arg, newArgs: map<string, bool>, b: BreakingChange) {
    || (b == ArgRemoved(a.name) && a.name !in newArgs)
    || (b == ArgRequiredToOptional(a.name) && a.name in newArgs && a.required && !newArgs[a.name])
    || (b == ArgOptionalToRequired(a.name) && a.name in newArgs && !a.required && newArgs[a.name])
  }

  predicate NewArgBreaks(a: Arg, oldArgs: map<string, bool>, b: BreakingChange) {
    b == ArgAddedRequired(a.name) && a.name !in oldArgs && a.required
  }

  predicate IdentityBreaks(before: Decl, after: Decl, b: BreakingChange) {
    || (b.ConventionChanged? && before.convention != after.convention)
    || (b.OperationChanged? && before.operation != after.operation)
  }

  predicate Breaks(before: Decl, after: Decl, b: BreakingChange) {
    || IdentityBreaks(before, after, b)
    || (exists i :: 0 <= i < |before.args| && OldArgBreaks(before.args[i], ByName(after.args), b))
    || (exists i :: 0 <= i < |after.args| && NewArgBreaks(after.args[i], ByName(before.args), b))
  }

  /** An optional arg the old declaration did not have. */
  predicate Addition(a: Arg, oldArgs: map<string, bool>) {
    a.name !in oldArgs && !a.required
  }

  predicate HasAddition(before: Decl, after: Decl) {
    exists i :: 0 <= i < |after.args| && Addition(after.args[i], ByName(before.args))
  }

  predicate SameFlag(a: Arg, flags: map<string, bool>) {
    a.name in flags && flags[a.name] == a.required
  }

  /** None of the changes the checker lists as breaking. */
  predicate Compatible(before: Decl, after: Decl) {
    && before.convention == after.convention && before.operation == after.operation
    && (forall i :: 0 <= i < |before.args| ==> SameFlag(before.args[i], ByName(after.args)))
    && (forall i :: 0 <= i < |after.args| ==> after.args[i].name in ByName(before.args) || !after.args[i].required)
  }

  lemma CompatibleMeansNothingBreaks(before: Decl, after: Decl)
    ensures Compatible(before, after) <==> forall b :: !Breaks(before, after, b)
  {
    if !Compatible(before, after) {
      if before.convention != after.convention {
        assert Breaks(before, after, ConventionChanged);
      } else if before.operation != after.operation {
        assert Breaks(before, after, OperationChanged);
      } else if i :| 0 <= i < |before.args| && !SameFlag(before.args[i], ByName(after.args)) {
        var a := before.args[i];
        var b := if a.name !in ByName(after.args) then ArgRemoved(a.name)
                 else if a.required then ArgRequiredToOptional(a.name) else ArgOptionalToRequired(a.name);
        assert OldArgBreaks(before.args[i], ByName(after.args), b);
        assert Breaks(before, after, b);
      } else {
        var i :| 0 <= i < |after.args| && !(after.args[i].name in ByName(before.args) || !after.args[i].required);
        assert NewArgBreaks(after.args[i], ByName(before.args), ArgAddedRequired(after.args[i].name));
        assert Breaks(before, after, ArgAddedRequired(after.args[i].name));
      }
    }
  }

  // ----- What breaking means to callers and to readers -----

  /** A call names a convention and an operation and supplies some args. */
  datatype Call = Call(convention: string, operation: string, args: set<string>)

  /** The call supplies every required arg and none that is not declared. */
  predicate Right(call: Call, d: Decl) {
    var flags := ByName(d.args);
    && call.convention == d.convention && call.operation == d.operation
    && (forall n :: n in flags && flags[n] ==> n in call.args)
    && (forall n :: n in call.args ==> n in flags)
  }

  /** Every call that was right is still right. */
  ghost predicate CallsKept(before: Decl, after: Decl) {
    forall call :: Right(call, before) ==> Right(call, after)
  }

  ghost predicate AlwaysSupplied(d: Decl, name: string) {
    forall call :: Right(call, d) ==> name in call.args
  }

  /** Whatever a reader could rely on finding in every right call, it still can. */
  ghost predicate PresenceKept(before: Decl, after: Decl) {
    forall n :: AlwaysSupplied(before, n) ==> AlwaysSupplied(after, n)
  }

  function FullCall(d: Decl): Call {
    Call(d.convention, d.operation, ByName(d.args).Keys)
  }

  function BareCall(d: Decl): Call {
    Call(d.convention, d.operation, set n | n in ByName(d.args) && ByName(d.args)[n])
  }

  lemma SuppliedIsRequired(d: Decl, name: string)
    ensures AlwaysSupplied(d, name) <==> name in ByName(d.args) && ByName(d.args)[name]
  {
    assert Right(BareCall(d), d);
  }

  /** Same identity, no arg gone, and nothing required that was not required before. */
  predicate AsksNoMore(before: Decl, after: Decl) {
    && before.convention == after.convention && before.operation == after.operation
    && (forall n :: n in ByName(before.args) ==> n in ByName(after.args))
    && (forall n :: n in ByName(after.args) && ByName(after.args)[n] ==>
          n in ByName(before.args) && ByName(before.args)[n])
  }

  lemma CallsKeptExactly(before: Decl, after: Decl)
    ensures CallsKept(before, after) <==> AsksNoMore(before, after)
  {
    if CallsKept(before, after) {
      var full, bare := FullCall(before), BareCall(before);
      assert Right(full, before) && Right(bare, before);
      assert Right(full, after) && Right(bare, after);
      forall n | n in ByName(before.args) ensures n in ByName(after.args) { assert n in full.args; }
      forall n | n in ByName(after.args) && ByName(after.args)[n]
        ensures n in ByName(before.args) && ByName(before.args)[n]
      {
        assert n in bare.args;
      }
    }
  }

  /**
   No entry of the old declaration, and no required entry of a name the new one adds, is contradicted by a later entry
   of its name.
   */
  predicate EntriesAgree(before: Decl, after: Decl) {
    && (forall i :: 0 <= i < |before.args| ==>
          before.args[i].name in ByName(before.args)
          && ByName(before.args)[before.args[i].name] == before.args[i].required)
    && (forall i :: 0 <= i < |after.args| && after.args[i].name !in ByName(before.args) && after.args[i].required ==>
          after.args[i].name in ByName(after.args) && ByName(after.args)[after.args[i].name])
  }

  /** The three breaks that make some right call wrong; turning a required arg optional is the one that does not. */
  lemma CallsBreakExactly(before: Decl, after: Decl)
    requires EntriesAgree(before, after)
    ensures CallsKept(before, after) <==> forall b :: Breaks(before, after, b) ==> b.ArgRequiredToOptional?
  {
    if CallsKept(before, after) {
      KeptBreaksOnlyReaders(before, after);
    } else {
      var b := CallBreaking(before, after);
    }
  }

  lemma KeptBreaksOnlyReaders(before: Decl, after: Decl)
    requires EntriesAgree(before, after) && CallsKept(before, after)
    ensures forall b :: Breaks(before, after, b) ==> b.ArgRequiredToOptional?
  {
    CallsKeptExactly(before, after);
    EveryNameIsIndexed(before);
    EveryNameIsIndexed(after);
  }

  lemma CallBreaking(before: Decl, after: Decl) returns (b: BreakingChange)
    requires !CallsKept(before, after)
    ensures Breaks(before, after, b) && !b.ArgRequiredToOptional?
  {
    var oldArgs, newArgs := ByName(before.args), ByName(after.args);
    CallsKeptExactly(before, after);
    if before.convention != after.convention {
      b := ConventionChanged;
    } else if before.operation != after.operation {
      b := OperationChanged;
    } else if n :| n in oldArgs && n !in newArgs {
      b := ArgRemoved(n);
      ByNameIsALastEntry(before.args, n);
      var i :| 0 <= i < |before.args| && before.args[i].name == n;
      assert OldArgBreaks(before.args[i], newArgs, b);
    } else {
      var n :| n in newArgs && newArgs[n] && !(n in oldArgs && oldArgs[n]);
      ByNameIsALastEntry(before.args, n);
      ByNameIsALastEntry(after.args, n);
      if n in oldArgs {
        b := ArgOptionalToRequired(n);
        var i :| 0 <= i < |before.args| && before.args[i].name == n && !before.args[i].required;
        assert OldArgBreaks(before.args[i], newArgs, b);
      } else {
        b := ArgAddedRequired(n);
        var i :| 0 <= i < |after.args| && after.args[i].name == n && after.args[i].required;
        assert NewArgBreaks(after.args[i], oldArgs, b);
      }
    }
  }

  lemma CompatibleEntriesAgree(before: Decl, after: Decl)
    requires Compatible(before, after)
    ensures EntriesAgree(before, after)
  {
    forall i | 0 <= i < |before.args|
      ensures before.args[i].name in ByName(before.args)
              && ByName(before.args)[before.args[i].name] == before.args[i].required
    {
      ByNameIsALastEntry(before.args, before.args[i].name);
    }
  }

  /**
   A step breaks nothing exactly when no call goes wrong, nothing a reader could rely on goes missing, and no two
   entries of one name disagree.
   */
  lemma CompatibleKeepsCallsAndPresence(before: Decl, after: Decl)
    ensures Compatible(before, after)
            <==> EntriesAgree(before, after) && CallsKept(before, after) && PresenceKept(before, after)
  {
    CallsKeptExactly(before, after);
    forall n ensures AlwaysSupplied(before, n) <==> n in ByName(before.args) && ByName(before.args)[n] {
      SuppliedIsRequired(before, n);
    }
    forall n ensures AlwaysSupplied(after, n) <==> n in ByName(after.args) && ByName(after.args)[n] {
      SuppliedIsRequired(after, n);
    }
    forall n ensures n in ByName(before.args) <==> exists i :: 0 <= i < |before.args| && before.args[i].name == n {
      ByNameIsALastEntry(before.args, n);
    }
    if Compatible(before, after) {
      CompatibleEntriesAgree(before, after);
      forall n | n in ByName(before.args)
        ensures n in ByName(after.args) && ByName(after.args)[n] == ByName(before.args)[n] {
        ByNameIsALastEntry(before.args, n);
      }
      forall n | n in ByName(after.args) && ByName(after.args)[n] ensures n in ByName(before.args) {
        ByNameIsALastEntry(after.args, n);
      }
    }
  }

  /** The bump a pair of declarations calls for. */
  function RequiredBump(before: Decl, after: Decl): VersionKind {
    if !Compatible(before, after) then Major
    else if HasAddition(before, after) then Minor
    else if before.version != after.version then Patch
    else NoChange
  }

  function ClassifyVersionKind(r: DiffResult): VersionKind {
    if |r.breaking| > 0 then Major
    else if |r.additions| > 0 then Minor
    else if r.oldVersion != r.newVersion then Patch
    else NoChange
  }

  method IdentityChanges(before: Decl, after: Decl) returns (breaking: seq<BreakingChange>)
    ensures forall b :: b in breaking <==> IdentityBreaks(before, after, b)
  {
    breaking := [];
    if before.convention != after.convention {
      breaking := breaking + [ConventionChanged];
    }
    if before.operation != after.operation {
      breaking := breaking + [OperationChanged];
    }
  }

  method RemovedOrChanged(args: seq<Arg>, newArgs: map<string, bool>) returns (breaking: seq<BreakingChange>)
    ensures forall b :: b in breaking <==> exists i :: 0 <= i < |args| && OldArgBreaks(args[i], newArgs, b)
  {
    breaking := [];
    for i := 0 to |args|
      invariant forall b :: b in breaking <==> exists k :: 0 <= k < i && OldArgBreaks(args[k], newArgs, b)
    {
      var a := args[i];
      if a.name !in newArgs {
        breaking := breaking + [ArgRemoved(a.name)];
        continue;
      }
      if a.required && !newArgs[a.name] {
        breaking := breaking + [ArgRequiredToOptional(a.name)];
      } else if !a.required && newArgs[a.name] {
        breaking := breaking + [ArgOptionalToRequired(a.name)];
      }
    }
  }

  method Added(args: seq<Arg>, oldArgs: map<string, bool>)
        returns (breaking: seq<BreakingChange>, additions: seq<string>)
    ensures forall b :: b in breaking <==> exists i :: 0 <= i < |args| && NewArgBreaks(args[i], oldArgs, b)
    ensures forall n :: n in additions <==> exists i ::
            0 <= i < |args| && args[i].name == n && Addition(args[i], oldArgs)
  {
    breaking, additions := [], [];
    for i := 0 to |args|
      invariant forall b :: b in breaking <==> exists k :: 0 <= k < i && NewArgBreaks(args[k], oldArgs, b)
      invariant forall n :: n in additions <==> exists k ::
                0 <= k < i && args[k].name == n && Addition(args[k], oldArgs)
    {
      var a := args[i];
      if a.name !in oldArgs {
        if a.required {
          breaking := breaking + [ArgAddedRequired(a.name)];
        } else {
          additions := additions + [a.name];
        }
      }
    }
  }

  method Deprecated(oldArgs: map<string, bool>, newArgs: map<string, bool>) returns (deprecations: set<string>)
    ensures forall n :: n in deprecations <==> n in oldArgs && n in newArgs && oldArgs[n] && !newArgs[n]
  {
    deprecations := {};
    var names := oldArgs.Keys;
    while names != {}
      invariant names <= oldArgs.Keys
      invariant forall n :: n in deprecations <==>
                  n in oldArgs && n !in names && n in newArgs && oldArgs[n] && !newArgs[n]
      decreases |names|
    {
      var name :| name in names;
      if name in newArgs && oldArgs[name] && !newArgs[name] {
        deprecations := deprecations + {name};
      }
      names := names - {name};
    }
  }

  /** The diff of two declarations; None stands for a payload that is not valid JSON. */
  method Diff(oldPayload: Option<Decl>, newPayload: Option<Decl>) returns (r: Option<DiffResult>)
    ensures r.None? <==> oldPayload.None? || newPayload.None?
    ensures r.Some? ==>
              var before, after, d := oldPayload.value, newPayload.value, r.value;
              && d.oldVersion == before.version && d.newVersion == after.version
              && d.kind == RequiredBump(before, after)
              && (d.kind == Major <==> d.breaking != [])
              && (d.kind == Minor <==> d.breaking == [] && d.additions != [])
              && (d.kind == Patch <==> d.breaking == [] && d.additions == [] && before.version != after.version)
              && (forall b :: b in d.breaking <==> Breaks(before, after, b))
              && (forall n :: n in d.additions <==>
                    exists i :: 0 <= i < |after.args| && after.args[i].name == n && Addition(after.args[i],
                        ByName(before.args)))
              && (forall n :: n in d.deprecations <==>
                    && n in ByName(before.args) && n in ByName(after.args)
                    && ByName(before.args)[n] && !ByName(after.args)[n])
  {
    if oldPayload.None? || newPayload.None? {
      return None;
    }
    var before, after := oldPayload.value, newPayload.value;
    var identity := IdentityChanges(before, after);
    var oldArgs := IndexByName(before.args);
    var newArgs := IndexByName(after.args);
    var changed := RemovedOrChanged(before.args, newArgs);
    var addedRequired, additions := Added(after.args, oldArgs);
    var deprecations := Deprecated(oldArgs, newArgs);
    var d := DiffResult(before.version, after.version, NoChange, identity + changed + addedRequired, additions,
        deprecations);
    d := d.(kind := ClassifyVersionKind(d));
    KindIsRequiredBump(before, after, d);
    return Some(d);
  }

  lemma KindIsRequiredBump(before: Decl, after: Decl, d: DiffResult)
    requires d.oldVersion == before.version && d.newVersion == after.version
    requires forall b :: b in d.breaking <==> Breaks(before, after, b)
    requires forall n :: n in d.additions <==>
               exists i :: 0 <= i < |after.args| && after.args[i].name == n && Addition(after.args[i],
                   ByName(before.args))
    ensures ClassifyVersionKind(d) == RequiredBump(before, after)
  {
    CompatibleMeansNothingBreaks(before, after);
    if |d.breaking| > 0 {
      assert d.breaking[0] in d.breaking;
    }
    if |d.additions| > 0 {
      assert d.additions[0] in d.additions;
    }
    if HasAddition(before, after) {
      var i :| 0 <= i < |after.args| && Addition(after.args[i], ByName(before.args));
      assert after.args[i].name in d.additions;
    }
  }

  /**
   A declaration that changes in its version alone: a patch, or no change if not even that, unless two of its own
   entries of one name contradict each other, which counts as a break.
   */
  lemma VersionAlone(d: Decl, version: string)
    ensures var kind := RequiredBump(d, d.(version := version));
            if exists i, j :: 0 <= i < j < |d.args| && d.args[i].name == d.args[j].name
                              && d.args[i].required != d.args[j].required then kind == Major
            else kind == if version == d.version then NoChange else Patch
  {
    EveryNameIsIndexed(d);
    forall n | n in ByName(d.args)
      ensures exists i :: 0 <= i < |d.args| && d.args[i].name == n && d.args[i].required == ByName(d.args)[n]
    {
      ByNameIsALastEntry(d.args, n);
    }
    if i, j :| 0 <= i < j < |d.args| && d.args[i].name == d.args[j].name
               && d.args[i].required != d.args[j].required {
      assert !SameFlag(d.args[i], ByName(d.args)) || !SameFlag(d.args[j], ByName(d.args));
    }
  }

  // ----- Acceptable bumps -----

  datatype BumpError = BadOldVersion | BadNewVersion | NoMajorBump | RegressesMajor | NoMinorBump | NotGreater

  function ValidateVersionBump(diff: DiffResult): seq<BumpError> {
    var old', new' := Semver(diff.oldVersion), Semver(diff.newVersion);
    if old'.None? then [BadOldVersion]
    else if new'.None? then [BadNewVersion]
    else
      var o, n := old'.value, new'.value;
      match diff.kind
      case Major => if n.major <= o.major then [NoMajorBump] else []
      case Minor =>
        if n.major > o.major then []
        else if n.major < o.major then [RegressesMajor]
        else if n.minor <= o.minor then [NoMinorBump]
        else []
      case _ =>
        if n.major < o.major
           || (n.major == o.major && n.minor < o.minor)
           || (n.major == o.major && n.minor == o.minor && n.patch < o.patch)
        then [NotGreater] else []
  }

  /** The version-bump checker accepts the step from one declaration to the other. */
  predicate Accepts(before: Decl, after: Decl) {
    ValidateVersionBump(DiffResult(before.version, after.version, RequiredBump(before, after), [], [], {})) == []
  }

  predicate AtMost(a: Version, b: Version) {
    || a.major < b.major
    || (a.major == b.major && a.minor < b.minor)
    || (a.major == b.major && a.minor == b.minor && a.patch <= b.patch)
  }

  /**
   Both versions parse, the new one is not behind, and it is strictly ahead in major or minor where the changes call
   for that.
   */
  predicate Bumped(before: Decl, after: Decl) {
    && Semver(before.version).Some? && Semver(after.version).Some?
    && var o, n := Semver(before.version).value, Semver(after.version).value;
       && AtMost(o, n)
       && (!Compatible(before, after) ==> o.major < n.major)
       && (HasAddition(before, after) ==> o.major < n.major || (o.major == n.major && o.minor < n.minor))
  }

  lemma AcceptedExactlyWhenBumped(before: Decl, after: Decl)
    ensures Accepts(before, after) <==> Bumped(before, after)
  {
  }

  /** The checker, from two declarations to its verdict. */
  method CheckBump(before: Decl, after: Decl) returns (ok: bool)
    ensures ok == Accepts(before, after) == Bumped(before, after)
  {
    AcceptedExactlyWhenBumped(before, after);
    var d := Diff(Some(before), Some(after));
    return ValidateVersionBump(d.value) == [];
  }

  /** No required entry of the declaration is hidden by a later optional entry of the same name. */
  predicate NoShadowedRequired(d: Decl) {
    forall i :: 0 <= i < |d.args| && d.args[i].required ==>
        d.args[i].name in ByName(d.args) && ByName(d.args)[d.args[i].name]
  }

  lemma UniqueNamesShadowNothing(d: Decl)
    requires forall i, j :: 0 <= i < j < |d.args| ==> d.args[i].name != d.args[j].name
    ensures NoShadowedRequired(d)
  {
    forall i | 0 <= i < |d.args| && d.args[i].required
      ensures d.args[i].name in ByName(d.args) && ByName(d.args)[d.args[i].name]
    {
      ByNameIsALastEntry(d.args, d.args[i].name);
    }
  }

  lemma CompatibleIsTransitive(a: Decl, b: Decl, c: Decl)
    requires Compatible(a, b) && Compatible(b, c)
    requires NoShadowedRequired(c) || !HasAddition(a, b)
    ensures Compatible(a, c)
  {
    forall i | 0 <= i < |a.args|
      ensures a.args[i].name in ByName(c.args) && ByName(c.args)[a.args[i].name] == a.args[i].required
    {
      ByNameIsALastEntry(b.args, a.args[i].name);
    }
    forall i | 0 <= i < |c.args|
      ensures c.args[i].name in ByName(a.args) || !c.args[i].required
    {
      ByNameIsALastEntry(b.args, c.args[i].name);
    }
  }

  lemma AdditionsCompose(a: Decl, b: Decl, c: Decl)
    requires Compatible(a, b) && Compatible(b, c) && HasAddition(a, c)
    ensures HasAddition(a, b) || HasAddition(b, c)
  {
    var i :| 0 <= i < |c.args| && Addition(c.args[i], ByName(a.args));
    ByNameIsALastEntry(b.args, c.args[i].name);
    if c.args[i].name !in ByName(b.args) {
      assert Addition(c.args[i], ByName(b.args));
    } else {
      var k :| 0 <= k < |b.args| && b.args[k].name == c.args[i].name;
      assert Addition(b.args[k], ByName(a.args));
    }
  }

  /** The final declarations into which accepted steps compose, whatever came before. */
  predicate Composable(c: Decl) {
    NoShadowedRequired(c) || Semver(c.version).None? || Semver(c.version).value.minor == 0
  }

  /** Accepted bumps compose ... */
  lemma AcceptedBumpsCompose(a: Decl, b: Decl, c: Decl)
    requires Accepts(a, b) && Accepts(b, c) && Composable(c)
    ensures Accepts(a, c)
  {
    AcceptedExactlyWhenBumped(a, b);
    AcceptedExactlyWhenBumped(b, c);
    if Compatible(a, b) && Compatible(b, c) {
      if NoShadowedRequired(c) || !HasAddition(a, b) {
        CompatibleIsTransitive(a, b, c);
      }
      if HasAddition(a, c) {
        AdditionsCompose(a, b, c);
      }
    }
  }

  /** The args with every flag replaced by the one that counts. */
  function Resolved(args: seq<Arg>, flags: map<string, bool>): (r: seq<Arg>)
    requires forall i :: 0 <= i < |args| ==> args[i].name in flags
    ensures |r| == |args|
    ensures forall i :: 0 <= i < |args| ==> r[i].name == args[i].name && r[i].required == flags[args[i].name]
  {
    seq(|args|, i requires 0 <= i < |args| => Arg(args[i].name, args[i].kind, flags[args[i].name]))
  }

  function Without(args: seq<Arg>, name: string): (r: seq<Arg>)
    ensures forall a :: a in r <==> a in args && a.name != name
  {
    if args == [] then [] else (if args[0].name == name then [] else [args[0]]) + Without(args[1..], name)
  }

  lemma {:induction false} ByNameOfConsistent(args: seq<Arg>, flags: map<string, bool>, name: string)
    requires forall i :: 0 <= i < |args| ==> args[i].name in flags && args[i].required == flags[args[i].name]
    ensures name in ByName(args) <==> exists i :: 0 <= i < |args| && args[i].name == name
    ensures name in ByName(args) ==> name in flags && ByName(args)[name] == flags[name]
  {
    ByNameIsALastEntry(args, name);
  }

  /** c with every entry saying what c's last entry of that name says. */
  function Settled(c: Decl): (b: Decl)
    requires forall i :: 0 <= i < |c.args| ==> c.args[i].name in ByName(c.args)
  {
    c.(args := Resolved(c.args, ByName(c.args)))
  }

  lemma EveryNameIsIndexed(c: Decl)
    ensures forall i :: 0 <= i < |c.args| ==> c.args[i].name in ByName(c.args)
  {
    forall i | 0 <= i < |c.args| ensures c.args[i].name in ByName(c.args) {
      ByNameIsALastEntry(c.args, c.args[i].name);
    }
  }

  lemma SettledIsTheSame(c: Decl, n: string)
    requires forall i :: 0 <= i < |c.args| ==> c.args[i].name in ByName(c.args)
    ensures var flags := ByName(Settled(c).args);
            (n in flags <==> n in ByName(c.args)) && (n in flags ==> flags[n] == ByName(c.args)[n])
  {
    ByNameOfConsistent(Settled(c).args, ByName(c.args), n);
    ByNameIsALastEntry(c.args, n);
    if i :| 0 <= i < |c.args| && c.args[i].name == n {
      assert Settled(c).args[i].name == n;
    }
    if i :| 0 <= i < |c.args| && Settled(c).args[i].name == n {
      assert c.args[i].name == n;
    }
  }

  lemma SettledStep(c: Decl)
    requires forall i :: 0 <= i < |c.args| ==> c.args[i].name in ByName(c.args)
    ensures Compatible(Settled(c), c) && !HasAddition(Settled(c), c)
  {
    forall n ensures n in ByName(Settled(c).args) <==> n in ByName(c.args) {
      SettledIsTheSame(c, n);
    }
  }

  /** Dropping an optional arg x from a declaration whose entries agree, then adding it back, is a minor step. */
  lemma ReaddingStep(b: Decl, a: Decl, i: nat)
    requires forall k :: 0 <= k < |b.args| ==>
             b.args[k].name in ByName(b.args) && b.args[k].required == ByName(b.args)[b.args[k].name]
    requires i < |b.args| && !b.args[i].required
    requires a == Decl(b.convention, a.version, b.operation, Without(b.args, b.args[i].name))
    ensures b.args[i].name !in ByName(a.args) && Compatible(a, b) && HasAddition(a, b)
  {
    var x := b.args[i].name;
    forall n ensures n in ByName(a.args) <==> n in ByName(b.args) && n != x {
      WithoutFlags(b.args, ByName(b.args), x, n);
      ByNameIsALastEntry(b.args, n);
    }
    assert Addition(b.args[i], ByName(a.args));
    forall k | 0 <= k < |a.args|
      ensures a.args[k].name in ByName(b.args) && ByName(b.args)[a.args[k].name] == a.args[k].required
    {
      assert a.args[k] in Without(b.args, x);
    }
  }

  /**
   ... and only into composable declarations: for any other one there are two
   accepted steps that lead to it and whose composition is refused.
   */
  lemma NotComposable(c: Decl) returns (a: Decl, b: Decl)
    requires !Composable(c)
    ensures Accepts(a, b) && Accepts(b, c) && !Accepts(a, c)
  {
    EveryNameIsIndexed(c);
    var i :| 0 <= i < |c.args| && c.args[i].required && !ByName(c.args)[c.args[i].name];
    var v := Semver(c.version).value;
    b := Settled(c);
    a := Decl(c.convention, Format(Version(v.major, v.minor - 1, 0)), c.operation, Without(b.args, c.args[i].name));
    SettledStep(c);
    SettledIsConsistent(c);
    ReaddingStep(b, a, i);
    SemverFits(c.version);
    FormatThenParse(Version(v.major, v.minor - 1, 0));
    AcceptedBy(a, b, c, i);
  }

  lemma SettledIsConsistent(c: Decl)
    requires forall i :: 0 <= i < |c.args| ==> c.args[i].name in ByName(c.args)
    ensures forall k :: 0 <= k < |Settled(c).args| ==>
              var e := Settled(c).args[k];
                  e.name in ByName(Settled(c).args) && e.required == ByName(Settled(c).args)[e.name]
  {
    forall k | 0 <= k < |Settled(c).args|
      ensures var e := Settled(c).args[k];
              e.name in ByName(Settled(c).args) && e.required == ByName(Settled(c).args)[e.name]
    {
      SettledIsTheSame(c, c.args[k].name);
    }
  }

  lemma AcceptedBy(a: Decl, b: Decl, c: Decl, i: nat)
    requires Semver(c.version).Some? && b.version == c.version && Semver(a.version).Some?
    requires var v := Semver(c.version).value;
             v.minor > 0 && Semver(a.version).value == Version(v.major, v.minor - 1, 0)
    requires Compatible(a, b) && HasAddition(a, b) && Compatible(b, c) && !HasAddition(b, c)
    requires i < |c.args| && c.args[i].required && c.args[i].name !in ByName(a.args)
    ensures Accepts(a, b) && Accepts(b, c) && !Accepts(a, c)
  {
  }

  lemma SemverFits(s: string)
    requires Semver(s).Some?
    ensures var v := Semver(s).value; v.major <= MAX_INT && v.minor <= MAX_INT && v.patch <= MAX_INT
  {
  }

  lemma WithoutFlags(args: seq<Arg>, flags: map<string, bool>, x: string, n: string)
    requires forall i :: 0 <= i < |args| ==> args[i].name in flags && args[i].required == flags[args[i].name]
    ensures var kept := ByName(Without(args, x));
            && (n in kept <==> n != x && exists i :: 0 <= i < |args| && args[i].name == n)
            && (n in kept ==> n in flags && kept[n] == flags[n])
  {
    var rest := Without(args, x);
    forall i | 0 <= i < |rest| ensures rest[i].name in flags && rest[i].required == flags[rest[i].name] {
      assert rest[i] in rest;
    }
    ByNameOfConsistent(rest, flags, n);
    if n != x && exists i :: 0 <= i < |args| && args[i].name == n {
      var i :| 0 <= i < |args| && args[i].name == n;
      assert args[i] in rest;
      var k :| 0 <= k < |rest| && rest[k] == args[i];
    }
    if exists i :: 0 <= i < |rest| && rest[i].name == n {
      var i :| 0 <= i < |rest| && rest[i].name == n;
      assert rest[i] in rest;
    }
  }
}
