/**
 * Version order, listing and pruning of the installed distributions (src/cli/dist.ts).
 * A version is the identifiers that its name splits into.
 */
module Versions {
  import opened Common

  datatype Version = Version(core: seq<string>, pre: seq<string>)

  predicate Numeric(s: string) {
    s != "" && forall i :: 0 <= i < |s| ==> IsDigit(s[i])
  }

  predicate IdChar(c: char) {
    IsDigit(c) || 'A' <= c <= 'Z' || 'a' <= c <= 'z' || c == '-'
  }

  predicate Identifier(s: string) {
    s != "" && forall i :: 0 <= i < |s| ==> IdChar(s[i])
  }

  /** The identifiers of a name that the pattern accepts. */
  ghost predicate WellFormed(v: Version) {
    && |v.core| == 3 && (forall i :: 0 <= i < 3 ==> Numeric(v.core[i]))
    && forall i :: 0 <= i < |v.pre| ==> Identifier(v.pre[i])
  }

  /** The text of a version: its identifiers with dots between them, and a dash before a pre-release. */
  function Join(ids: seq<string>): string {
    if ids == [] then "" else if |ids| == 1 then ids[0] else ids[0] + "." + Join(ids[1..])
  }

  function Print(v: Version): string {
    Join(v.core) + if v.pre == [] then "" else "-" + Join(v.pre)
  }

  /** The place of the first `c`, or the length. */
  function IndexOf(s: string, c: char): (i: nat)
    ensures i <= |s| && (i < |s| ==> s[i] == c) && forall j :: 0 <= j < i ==> s[j] != c
  {
    if s == "" || s[0] == c then 0 else 1 + IndexOf(s[1..], c)
  }

  function Split(s: string, c: char): seq<string>
    decreases |s|
  {
    var i := IndexOf(s, c);
    if i == |s| then [s] else [s[..i]] + Split(s[i + 1..], c)
  }

  /** A pre-release starts after the first dash. */
  function Parse(s: string): Version {
    var i := IndexOf(s, '-');
    if i == |s| || i + 1 == |s| then Version(Split(s[..i], '.'), [])
    else Version(Split(s[..i], '.'), Split(s[i + 1..], '.'))
  }

  /** The name pattern. */
  ghost predicate Accepted(s: string) {
    WellFormed(Parse(s)) && Print(Parse(s)) == s
  }

  lemma IndexIs(s: string, c: char, i: nat)
    requires i <= |s| && c !in s[..i] && (i < |s| ==> s[i] == c)
    ensures IndexOf(s, c) == i
  {
    assert forall j :: 0 <= j < i ==> s[j] == s[..i][j];
  }

  lemma {:induction false} JoinHas(ids: seq<string>, c: char)
    requires c != '.' && forall id :: id in ids ==> c !in id
    ensures c !in Join(ids)
  {
    if |ids| > 1 {
      JoinHas(ids[1..], c);
    }
  }

  lemma {:induction false} SplitJoin(ids: seq<string>)
    requires ids != [] && forall id :: id in ids ==> '.' !in id
    ensures Split(Join(ids), '.') == ids
  {
    var s, n := Join(ids), |ids[0]|;
    if |ids| == 1 {
      assert s[..n] == ids[0];
      IndexIs(s, '.', n);
    } else {
      assert s[..n] == ids[0] && s[n + 1..] == Join(ids[1..]);
      IndexIs(s, '.', n);
      SplitJoin(ids[1..]);
    }
  }

  lemma IdsHaveNoDots(v: Version)
    requires WellFormed(v)
    ensures forall id :: id in v.core ==> '.' !in id && '-' !in id
    ensures forall id :: id in v.pre ==> '.' !in id && id != ""
  {
    forall id | id in v.core
      ensures '.' !in id && '-' !in id
    {
      assert Numeric(id);
    }
    forall id | id in v.pre
      ensures '.' !in id && id != ""
    {
      assert Identifier(id);
    }
  }

  lemma DashIs(v: Version)
    requires WellFormed(v)
    ensures var s, n := Print(v), |Join(v.core)|;
            && IndexOf(s, '-') == n <= |s| && s[..n] == Join(v.core)
            && if v.pre == [] then n == |s| else n + 1 < |s| && s[n + 1..] == Join(v.pre)
  {
    IdsHaveNoDots(v);
    var s, n := Print(v), |Join(v.core)|;
    JoinHas(v.core, '-');
    assert s[..n] == Join(v.core);
    IndexIs(s, '-', n);
    if v.pre != [] {
      assert v.pre[0] in v.pre && s[n + 1..] == Join(v.pre);
    }
  }

  /** A printed version parses back to itself. */
  lemma ParsePrint(v: Version)
    requires WellFormed(v)
    ensures Parse(Print(v)) == v && Accepted(Print(v))
  {
    DashIs(v);
    IdsHaveNoDots(v);
    SplitJoin(v.core);
    if v.pre != [] {
      SplitJoin(v.pre);
    }
  }

  /**
   * The pattern accepts the texts of well-formed versions and nothing else, and two of them are equal exactly
   * when the versions are.
   */
  lemma NamesAreVersions(s: string, t: string)
    ensures Accepted(s) <==> exists v :: WellFormed(v) && Print(v) == s
    ensures Accepted(s) && Accepted(t) ==> (s == t <==> Parse(s) == Parse(t))
  {
    if v :| WellFormed(v) && Print(v) == s {
      ParsePrint(v);
    }
  }

  /** What the pattern's parts are made of: digits, and letters, digits and dashes. */
  lemma PatternIs(v: Version)
    ensures WellFormed(v) <==>
            && |v.core| == 3
            && (forall i :: 0 <= i < 3 ==>
                  v.core[i] != "" && forall j :: 0 <= j < |v.core[i]| ==> '0' <= v.core[i][j] <= '9')
            && forall i :: 0 <= i < |v.pre| ==>
                 v.pre[i] != "" && forall j :: 0 <= j < |v.pre[i]| ==>
                   var c := v.pre[i][j];
                   '0' <= c <= '9' || 'A' <= c <= 'Z' || 'a' <= c <= 'z' || c == '-'
  {
  }

  // ------------------------------------------------------------------- comparison

  /** Two different identifiers. */
  function CmpId(x: string, y: string): int {
    if Numeric(x) && Numeric(y) then Value(x) - Value(y)
    else if Numeric(x) then -1
    else if Numeric(y) then 1
    else if TextLess(x, y) then -1 else 1
  }

  /** Identifiers from the left: the first difference decides, even when it decides zero. */
  function CmpPre(a: seq<string>, b: seq<string>): int {
    if a == [] && b == [] then 0
    else if a == [] then -1
    else if b == [] then 1
    else if a[0] == b[0] then CmpPre(a[1..], b[1..])
    else CmpId(a[0], b[0])
  }

  function CmpCore(a: seq<string>, b: seq<string>, i: nat): int
    requires |a| == |b| == 3 && i <= 3
    decreases 3 - i
  {
    if i == 3 then 0 else if Value(a[i]) != Value(b[i]) then Value(a[i]) - Value(b[i]) else CmpCore(a, b, i + 1)
  }

  function Cmp(a: Version, b: Version): int
    requires WellFormed(a) && WellFormed(b)
  {
    var c := CmpCore(a.core, b.core, 0);
    if c != 0 then c
    else if a.pre == [] && b.pre == [] then 0
    else if a.pre == [] then 1
    else if b.pre == [] then -1
    else CmpPre(a.pre, b.pre)
  }

  method CmpPrerelease(a: seq<string>, b: seq<string>) returns (r: int)
    ensures r == CmpPre(a, b)
  {
    var n := if |a| > |b| then |a| else |b|;
    assert a[0..] == a && b[0..] == b;
    for i := 0 to n
      invariant i <= |a| && i <= |b|
      invariant CmpPre(a, b) == CmpPre(a[i..], b[i..])
    {
      if i >= |a| {
        return -1;
      }
      if i >= |b| {
        return 1;
      }
      var x, y := a[i], b[i];
      assert a[i..][1..] == a[i + 1..] && b[i..][1..] == b[i + 1..];
      if x == y {
        continue;
      }
      var nx, ny := Numeric(x), Numeric(y);
      if nx && ny {
        return Value(x) - Value(y);
      }
      if nx != ny {
        return if nx then -1 else 1;
      }
      return if TextLess(x, y) then -1 else 1;
    }
    return 0;
  }

  /** The comparison of two names. */
  method CmpSemver(s: string, t: string) returns (r: int)
    requires Accepted(s) && Accepted(t)
    ensures r == Cmp(Parse(s), Parse(t))
  {
    var a, b := Parse(s), Parse(t);
    for i := 0 to 3
      invariant CmpCore(a.core, b.core, 0) == CmpCore(a.core, b.core, i)
    {
      if Value(a.core[i]) != Value(b.core[i]) {
        return Value(a.core[i]) - Value(b.core[i]);
      }
    }
    if a.pre == [] && b.pre == [] {
      return 0;
    }
    if a.pre == [] {
      return 1;
    }
    if b.pre == [] {
      return -1;
    }
    r := CmpPrerelease(a.pre, b.pre);
  }

  // ------------------------------------------- precedence, section 11 of SemVer 2.0.0

  ghost predicate IdLess(x: string, y: string) {
    || (Numeric(x) && Numeric(y) && Value(x) < Value(y))
    || (Numeric(x) && !Numeric(y))
    || (!Numeric(x) && !Numeric(y) && TextLess(x, y))
  }

  /** The first identifiers that differ decide; with none, more identifiers are higher. */
  ghost predicate PreLess(a: seq<string>, b: seq<string>) {
    (exists i: nat :: DiffersAt(a, b, i)) || a < b
  }

  ghost predicate CoreLess(a: seq<string>, b: seq<string>)
    requires |a| == |b| == 3
  {
    exists i :: 0 <= i < 3 && Value(a[i]) < Value(b[i]) && forall k :: 0 <= k < i ==> Value(a[k]) == Value(b[k])
  }

  ghost predicate CoreSame(a: seq<string>, b: seq<string>)
    requires |a| == |b| == 3
  {
    forall k :: 0 <= k < 3 ==> Value(a[k]) == Value(b[k])
  }

  /** A pre-release is lower than its own release. */
  ghost predicate Precedes(a: Version, b: Version)
    requires WellFormed(a) && WellFormed(b)
  {
    || CoreLess(a.core, b.core)
    || (CoreSame(a.core, b.core) && a.pre != [] && (b.pre == [] || PreLess(a.pre, b.pre)))
  }

  /** No leading zeros, as section 2 and section 9 require of numbers. */
  predicate Canonical(s: string) {
    Numeric(s) && |s| > 1 ==> s[0] != '0'
  }

  ghost predicate NoLeadingZeros(v: Version) {
    (forall i :: 0 <= i < |v.core| ==> Canonical(v.core[i])) && forall i :: 0 <= i < |v.pre| ==> Canonical(v.pre[i])
  }

  /** The numbers without leading zeros are those that printing a number gives. */
  lemma CanonicalIsDecimal(s: string)
    requires Numeric(s)
    ensures Canonical(s) <==> exists n: nat :: s == Dec(n)
    ensures Canonical(s) ==> Value(s) >= 0 && s == Dec(Value(s))
  {
    NumeralsAreNatural(s);
    DecIsNumeral(Value(s));
    if Canonical(s) {
      var n: nat := Value(s);
      OneNumeral(s, Dec(n), n);
      assert s == Dec(n);
    }
    if n: nat :| s == Dec(n) {
      DecIsNumeral(n);
    }
  }

  lemma {:induction false} CanonicalIsLarge(s: string)
    requires Numeric(s) && s[0] != '0'
    ensures Value(s) >= 1 && (|s| > 1 ==> Value(s) >= 10)
  {
    if |s| > 1 {
      CanonicalIsLarge(s[..|s| - 1]);
    }
  }

  /** Numbers written without leading zeros are equal exactly when their strings are. */
  lemma {:induction false} ValueTells(s: string, t: string)
    requires Numeric(s) && Numeric(t) && Canonical(s) && Canonical(t)
    ensures Value(s) == Value(t) <==> s == t
  {
    if Value(s) == Value(t) {
      if |s| > 1 {
        CanonicalIsLarge(s);
      }
      if |t| > 1 {
        CanonicalIsLarge(t);
      }
      if |s| > 1 && |t| > 1 {
        var m, n := |s| - 1, |t| - 1;
        ValueTells(s[..m], t[..n]);
        assert s == s[..m] + [s[m]] && t == t[..n] + [t[n]];
      }
    }
  }

  lemma IdsDiffer(x: string, y: string)
    requires x != y && Canonical(x) && Canonical(y)
    ensures CmpId(x, y) < 0 <==> IdLess(x, y)
    ensures CmpId(x, y) > 0 <==> IdLess(y, x)
    ensures CmpId(x, y) != 0
  {
    TextLessTotal(x, y);
    if Numeric(x) && Numeric(y) {
      ValueTells(x, y);
    }
  }

  lemma PrefixAgrees(a: seq<string>, b: seq<string>, i: nat)
    requires i <= |a| && i <= |b| && a[..i] == b[..i]
    ensures forall j :: 0 <= j < i ==> a[j] == b[j]
  {
    assert forall j :: 0 <= j < i ==> a[j] == a[..i][j] && b[j] == b[..i][j];
  }

  ghost predicate DiffersAt(a: seq<string>, b: seq<string>, i: nat) {
    i < |a| && i < |b| && a[..i] == b[..i] && a[i] != b[i] && IdLess(a[i], b[i])
  }

  lemma DiffersLater(a: seq<string>, b: seq<string>, i: nat)
    requires a != [] && b != [] && a[0] == b[0]
    ensures DiffersAt(a[1..], b[1..], i) <==> DiffersAt(a, b, i + 1)
  {
    if i < |a[1..]| && i < |b[1..]| {
      assert a[..i + 1] == [a[0]] + a[1..][..i] && b[..i + 1] == [b[0]] + b[1..][..i];
      assert a[1..][..i] == a[..i + 1][1..] && b[1..][..i] == b[..i + 1][1..];
    }
  }

  /** The first difference, one identifier at a time. */
  lemma PreLessAfterSame(a: seq<string>, b: seq<string>)
    requires a != [] && b != [] && a[0] == b[0]
    ensures PreLess(a, b) <==> PreLess(a[1..], b[1..])
  {
    assert a == [a[0]] + a[1..] && b == [b[0]] + b[1..];
    assert a < b <==> a[1..] < b[1..];
    if exists i: nat :: DiffersAt(a[1..], b[1..], i) {
      var i: nat :| DiffersAt(a[1..], b[1..], i);
      DiffersLater(a, b, i);
    }
    if exists i: nat :: DiffersAt(a, b, i) {
      var i: nat :| DiffersAt(a, b, i);
      DiffersLater(a, b, i - 1);
    }
  }

  lemma PreLessAtDifference(a: seq<string>, b: seq<string>)
    requires a != [] && b != [] && a[0] != b[0]
    ensures PreLess(a, b) <==> IdLess(a[0], b[0])
  {
    assert a[..0] == b[..0];
    assert IdLess(a[0], b[0]) ==> DiffersAt(a, b, 0);
    if exists i: nat :: DiffersAt(a, b, i) {
      var i: nat :| DiffersAt(a, b, i);
      PrefixAgrees(a, b, i);
    }
  }

  ghost predicate AllCanonical(ids: seq<string>) {
    forall i :: 0 <= i < |ids| ==> Canonical(ids[i])
  }

  lemma {:induction false} CmpPreIs(a: seq<string>, b: seq<string>)
    requires AllCanonical(a) && AllCanonical(b)
    ensures CmpPre(a, b) < 0 <==> PreLess(a, b)
    ensures CmpPre(a, b) > 0 <==> PreLess(b, a)
    ensures CmpPre(a, b) == 0 <==> a == b
  {
    if a != [] && b != [] {
      if a[0] == b[0] {
        CmpPreIs(a[1..], b[1..]);
        PreLessAfterSame(a, b);
        PreLessAfterSame(b, a);
        assert a == [a[0]] + a[1..] && b == [b[0]] + b[1..];
      } else {
        IdsDiffer(a[0], b[0]);
        PreLessAtDifference(a, b);
        PreLessAtDifference(b, a);
      }
    }
  }

  lemma CmpCoreIs(a: seq<string>, b: seq<string>)
    requires |a| == |b| == 3
    ensures CmpCore(a, b, 0) < 0 <==> CoreLess(a, b)
    ensures CmpCore(a, b, 0) > 0 <==> CoreLess(b, a)
    ensures CmpCore(a, b, 0) == 0 <==> CoreSame(a, b)
  {
    assert CmpCore(a, b, 2) == Value(a[2]) - Value(b[2]);
    assert CmpCore(a, b, 1) == if Value(a[1]) != Value(b[1]) then Value(a[1]) - Value(b[1]) else CmpCore(a, b, 2);
    CoreLessIs(a, b);
    CoreLessIs(b, a);
  }

  lemma CoreLessIs(a: seq<string>, b: seq<string>)
    requires |a| == |b| == 3
    ensures CoreLess(a, b) <==>
            || Value(a[0]) < Value(b[0])
            || (Value(a[0]) == Value(b[0]) && Value(a[1]) < Value(b[1]))
            || (Value(a[0]) == Value(b[0]) && Value(a[1]) == Value(b[1]) && Value(a[2]) < Value(b[2]))
  {
  }

  lemma CoreTells(a: seq<string>, b: seq<string>)
    requires |a| == |b| == 3 && AllCanonical(a) && AllCanonical(b)
    requires forall k :: 0 <= k < 3 ==> Numeric(a[k]) && Numeric(b[k])
    ensures CoreSame(a, b) <==> a == b
  {
    ValueTells(a[0], b[0]);
    ValueTells(a[1], b[1]);
    ValueTells(a[2], b[2]);
  }

  /**
   * Without leading zeros `cmpSemver` is the precedence of section 11 of SemVer 2.0.0, in both
   * directions, and zero only for equal versions.
   */
  lemma CmpIsPrecedence(a: Version, b: Version)
    requires WellFormed(a) && WellFormed(b) && NoLeadingZeros(a) && NoLeadingZeros(b)
    ensures Cmp(a, b) < 0 <==> Precedes(a, b)
    ensures Cmp(a, b) > 0 <==> Precedes(b, a)
    ensures Cmp(a, b) == 0 <==> a == b
  {
    CmpCoreIs(a.core, b.core);
    CoreTells(a.core, b.core);
    CmpPreIs(a.pre, b.pre);
  }

  /** And on names: zero only for equal strings. */
  lemma ZeroMeansEqualNames(s: string, t: string)
    requires Accepted(s) && Accepted(t) && NoLeadingZeros(Parse(s)) && NoLeadingZeros(Parse(t))
    ensures Cmp(Parse(s), Parse(t)) == 0 <==> s == t
  {
    CmpIsPrecedence(Parse(s), Parse(t));
    NamesAreVersions(s, t);
  }

  // ----------------------------------------------- the order of any accepted names

  lemma CmpIdOrders(x: string, y: string, z: string)
    requires x != y
    ensures CmpId(x, y) < 0 <==> CmpId(y, x) > 0
    ensures CmpId(x, y) < 0 && y != z && CmpId(y, z) < 0 ==> x != z && CmpId(x, z) < 0
  {
    TextLessTotal(x, y);
    TextLessTotal(y, z);
    TextLessTotal(x, z);
    if TextLess(x, y) && TextLess(y, z) {
      TextLessTransitive(x, y, z);
    }
  }

  lemma {:induction false} CmpPreAntisymmetric(a: seq<string>, b: seq<string>)
    ensures CmpPre(a, b) < 0 <==> CmpPre(b, a) > 0
    ensures CmpPre(a, a) == 0
  {
    if a != [] {
      CmpPreAntisymmetric(a[1..], if b != [] then b[1..] else []);
      if b != [] && a[0] != b[0] {
        CmpIdOrders(a[0], b[0], a[0]);
        CmpIdOrders(b[0], a[0], b[0]);
      }
    }
  }

  /** Either way round, leading zeros or not. */
  lemma CmpAntisymmetric(a: Version, b: Version)
    requires WellFormed(a) && WellFormed(b)
    ensures Cmp(a, b) < 0 <==> Cmp(b, a) > 0
    ensures Cmp(a, b) == 0 <==> Cmp(b, a) == 0
    ensures Cmp(a, a) == 0
  {
    CmpCoreIs(a.core, b.core);
    CmpCoreIs(b.core, a.core);
    CmpCoreIs(a.core, a.core);
    CoreLessIs(a.core, b.core);
    CoreLessIs(b.core, a.core);
    CmpPreAntisymmetric(a.pre, b.pre);
    CmpPreAntisymmetric(b.pre, a.pre);
  }

  lemma {:induction false} CmpPreTransitive(a: seq<string>, b: seq<string>, c: seq<string>)
    requires CmpPre(a, b) < 0 && CmpPre(b, c) < 0
    ensures CmpPre(a, c) < 0
  {
    if a != [] {
      if a[0] == b[0] && b[0] == c[0] {
        CmpPreTransitive(a[1..], b[1..], c[1..]);
      } else if a[0] != b[0] {
        CmpIdOrders(a[0], b[0], c[0]);
      }
    }
  }

  /**
   * Lower than lower is lower, for any accepted names: with CmpIsPrecedence a strict total order when none has
   * leading zeros.
   */
  lemma CmpTransitive(a: Version, b: Version, c: Version)
    requires WellFormed(a) && WellFormed(b) && WellFormed(c)
    requires Cmp(a, b) < 0 && Cmp(b, c) < 0
    ensures Cmp(a, c) < 0
  {
    CmpCoreIs(a.core, b.core);
    CmpCoreIs(b.core, c.core);
    CmpCoreIs(a.core, c.core);
    CoreLessIs(a.core, b.core);
    CoreLessIs(b.core, c.core);
    CoreLessIs(a.core, c.core);
    if a.pre != [] && b.pre != [] && c.pre != [] && CmpPre(a.pre, b.pre) < 0 && CmpPre(b.pre, c.pre) < 0 {
      CmpPreTransitive(a.pre, b.pre, c.pre);
    }
  }

  // ----------------------------------------------------------------- leading zeros

  /** The first identifiers that differ are two writings of one number. */
  ghost predicate SameNumberFirst(a: seq<string>, b: seq<string>) {
    a != [] && b != [] &&
    if a[0] == b[0] then SameNumberFirst(a[1..], b[1..])
    else Numeric(a[0]) && Numeric(b[0]) && Value(a[0]) == Value(b[0])
  }

  lemma {:induction false} PreZeroExactly(a: seq<string>, b: seq<string>)
    ensures CmpPre(a, b) == 0 <==> a == b || SameNumberFirst(a, b)
  {
    if a != [] && b != [] && a[0] == b[0] {
      PreZeroExactly(a[1..], b[1..]);
      assert a == [a[0]] + a[1..] && b == [b[0]] + b[1..];
    }
  }

  /**
   * For any two names, leading zeros or not, the comparison is zero exactly when the numbers agree and
   * the pre-releases are equal or first differ in two writings of one number, whatever comes after.
   */
  lemma ZeroExactly(a: Version, b: Version)
    requires WellFormed(a) && WellFormed(b)
    ensures Cmp(a, b) == 0 <==> CoreSame(a.core, b.core) && (a.pre == b.pre || SameNumberFirst(a.pre, b.pre))
  {
    CmpCoreIs(a.core, b.core);
    PreZeroExactly(a.pre, b.pre);
  }

  /** With leading zeros, zero is not even an equivalence: 1.0.0-01 compares equal to both 1.0.0-1.a and 1.0.0-1.b. */
  lemma ZeroIsNotTransitive()
    ensures var core := ["1", "0", "0"];
            var a, b, c := Version(core, ["1", "a"]), Version(core, ["01"]), Version(core, ["1", "b"]);
            && WellFormed(a) && WellFormed(b) && WellFormed(c)
            && Cmp(a, b) == 0 && Cmp(b, c) == 0 && Cmp(a, c) < 0
  {
    assert Value("0") == 0 && Value("1") == 1 by {
      assert "0"[..0] == "" && "1"[..0] == "";
    }
    assert "01"[..1] == "0";
    assert Value("01") == 1;
    var x, y, z := ["1", "a"], ["01"], ["1", "b"];
    assert x[0] != y[0] && CmpPre(x, y) == 0 && CmpPre(y, z) == 0;
    assert x[1..] == ["a"] && z[1..] == ["b"];
    assert CmpPre(x, z) == CmpPre(["a"], ["b"]) == CmpId("a", "b") == -1;
    var core := ["1", "0", "0"];
    assert forall i :: 0 <= i < 3 ==> core[i] == "1" || core[i] == "0";
    CmpCoreIs(core, core);
  }

  // ---------------------------------------------------------- installed versions

  ghost predicate AllWellFormed(names: set<Version>) {
    forall v :: v in names ==> WellFormed(v)
  }

  /** No two of the names compare to zero. */
  ghost predicate ToldApart(names: set<Version>)
    requires AllWellFormed(names)
  {
    forall v, w :: v in names && w in names && v != w ==> Cmp(v, w) != 0
  }

  /**
   * Names without leading zeros are told apart; a leading zero does no harm unless it makes two of them
   * compare to zero.
   */
  lemma NoZerosToldApart(names: set<Version>)
    requires AllWellFormed(names) && forall v :: v in names ==> NoLeadingZeros(v)
    ensures ToldApart(names)
  {
    forall v, w | v in names && w in names && v != w
      ensures Cmp(v, w) != 0
    {
      CmpIsPrecedence(v, w);
    }
  }

  function Elements(s: seq<Version>): set<Version> {
    set v | v in s
  }

  ghost predicate InStep(all: seq<Version>, i: nat) {
    i + 1 < |all| && WellFormed(all[i]) && WellFormed(all[i + 1]) && Cmp(all[i], all[i + 1]) <= 0
  }

  /** A list as a sort leaves it when comparing is not transitive: no name above the next one. */
  ghost predicate Stepwise(all: seq<Version>) {
    (forall i :: 0 <= i < |all| ==> WellFormed(all[i])) && forall i :: 0 <= i < |all| - 1 ==> InStep(all, i)
  }

  ghost predicate Ascending(all: seq<Version>) {
    && (forall i :: 0 <= i < |all| ==> WellFormed(all[i]))
    && forall i, j :: 0 <= i < j < |all| ==> Cmp(all[i], all[j]) < 0
  }

  lemma FrontAscends(all: seq<Version>)
    requires Ascending(all) && all != []
    ensures Ascending(all[..|all| - 1])
  {
    var front := all[..|all| - 1];
    assert forall i :: 0 <= i < |front| ==> front[i] == all[i];
  }

  lemma BelowLast(all: seq<Version>, i: nat)
    requires i < |all| - 1 && Ascending(all[..|all| - 1]) && WellFormed(all[|all| - 1])
    requires WellFormed(all[|all| - 2]) && Cmp(all[|all| - 2], all[|all| - 1]) < 0
    ensures WellFormed(all[i]) && Cmp(all[i], all[|all| - 1]) < 0
  {
    var n, front := |all| - 1, all[..|all| - 1];
    assert front[i] == all[i] && front[n - 1] == all[n - 1];
    if i < n - 1 {
      assert Cmp(front[i], front[n - 1]) < 0;
      CmpTransitive(all[i], all[n - 1], all[n]);
    }
  }

  lemma AscendsOn(all: seq<Version>)
    requires all != [] && Ascending(all[..|all| - 1]) && WellFormed(all[|all| - 1])
    requires |all| > 1 ==> WellFormed(all[|all| - 2]) && Cmp(all[|all| - 2], all[|all| - 1]) < 0
    ensures Ascending(all)
  {
    var n, front := |all| - 1, all[..|all| - 1];
    assert forall i :: 0 <= i < n ==> front[i] == all[i];
    forall i, j | 0 <= i < j < |all|
      ensures WellFormed(all[i]) && WellFormed(all[j]) && Cmp(all[i], all[j]) < 0
    {
      if j == n {
        BelowLast(all, i);
      } else {
        assert Cmp(front[i], front[j]) < 0;
      }
    }
  }

  ghost predicate StepsUp(all: seq<Version>, i: nat) {
    InStep(all, i) && Cmp(all[i], all[i + 1]) < 0
  }

  lemma StepsUpWhenApart(all: seq<Version>, i: nat)
    requires Stepwise(all) && NoDuplicates(all) && AllWellFormed(Elements(all)) && ToldApart(Elements(all))
    requires i < |all| - 1
    ensures StepsUp(all, i)
  {
    assert all[i] in Elements(all) && all[i + 1] in Elements(all);
    assert InStep(all, i);
  }

  lemma {:induction false} RisingAscends(all: seq<Version>)
    requires forall i :: 0 <= i < |all| ==> WellFormed(all[i])
    requires forall i :: 0 <= i < |all| - 1 ==> StepsUp(all, i)
    ensures Ascending(all)
  {
    if all != [] {
      var n := |all| - 1;
      forall i | 0 <= i < n - 1
        ensures StepsUp(all[..n], i)
      {
        assert StepsUp(all, i);
      }
      RisingAscends(all[..n]);
      assert n > 0 ==> StepsUp(all, n - 1);
      AscendsOn(all);
    }
  }

  /** When the names are told apart such a list is ascending throughout. */
  lemma StepwiseAscends(all: seq<Version>)
    requires Stepwise(all) && NoDuplicates(all) && AllWellFormed(Elements(all)) && ToldApart(Elements(all))
    ensures Ascending(all)
  {
    forall i | 0 <= i < |all| - 1
      ensures StepsUp(all, i)
    {
      StepsUpWhenApart(all, i);
    }
    RisingAscends(all);
  }

  lemma LastIs(a: seq<Version>, b: seq<Version>)
    requires Ascending(a) && Ascending(b) && Elements(a) == Elements(b) && a != [] && b != []
    ensures WellFormed(a[|a| - 1]) && WellFormed(b[|b| - 1])
    ensures a[|a| - 1] == b[|b| - 1] || Cmp(b[|b| - 1], a[|a| - 1]) < 0
  {
    assert b[|b| - 1] in Elements(a);
    var i :| 0 <= i < |a| && a[i] == b[|b| - 1];
  }

  lemma SameLast(a: seq<Version>, b: seq<Version>)
    requires Ascending(a) && Ascending(b) && Elements(a) == Elements(b)
    ensures a == [] <==> b == []
    ensures a != [] && b != [] ==> a[|a| - 1] == b[|b| - 1]
  {
    assert a != [] ==> a[0] in Elements(a);
    assert b != [] ==> b[0] in Elements(b);
    if a != [] && b != [] {
      LastIs(a, b);
      LastIs(b, a);
      CmpAntisymmetric(a[|a| - 1], b[|b| - 1]);
    }
  }

  /** And there is only one: its last name is the highest, and so on down. */
  lemma {:induction false} ListingDetermined(a: seq<Version>, b: seq<Version>)
    requires Ascending(a) && Ascending(b) && Elements(a) == Elements(b)
    ensures a == b
  {
    SameLast(a, b);
    if a != [] {
      var m, n := |a| - 1, |b| - 1;
      DropsLast(a);
      DropsLast(b);
      ListingDetermined(a[..m], b[..n]);
      assert a == a[..m] + [a[m]] && b == b[..n] + [b[n]];
    }
  }

  lemma DropsLast(a: seq<Version>)
    requires Ascending(a) && a != []
    ensures Ascending(a[..|a| - 1]) && Elements(a[..|a| - 1]) == Elements(a) - {a[|a| - 1]}
  {
    var n := |a| - 1;
    AscendingIsDistinct(a);
    assert a == a[..n] + [a[n]] && a[n] !in a[..n];
    assert Elements(a) == Elements(a[..n]) + {a[n]};
  }

  /** Two names that compare to zero may be listed either way. */
  lemma TiesLeaveItOpen(v: Version, w: Version)
    requires WellFormed(v) && WellFormed(w) && v != w
    ensures Stepwise([v, w]) && Stepwise([w, v]) <==> !ToldApart({v, w})
  {
    CmpAntisymmetric(v, w);
    assert InStep([v, w], 0) <==> Cmp(v, w) <= 0;
    assert InStep([w, v], 0) <==> Cmp(w, v) <= 0;
    assert ToldApart({v, w}) <==> Cmp(v, w) != 0 by {
      assert v in {v, w} && w in {v, w};
    }
  }

  /** Where the sort puts a name among those sorted so far. */
  method Place(all: seq<Version>, v: Version) returns (i: nat)
    requires Stepwise(all) && WellFormed(v)
    ensures i <= |all| && Stepwise(all[..i] + [v] + all[i..])
  {
    i := 0;
    while i < |all| && Cmp(all[i], v) < 0
      invariant i <= |all| && (i > 0 ==> Cmp(all[i - 1], v) < 0)
    {
      i := i + 1;
    }
    if i < |all| {
      CmpAntisymmetric(all[i], v);
    }
    Placed(all, v, i);
  }

  lemma Placed(all: seq<Version>, v: Version, i: nat)
    requires Stepwise(all) && WellFormed(v) && i <= |all|
    requires (i > 0 ==> Cmp(all[i - 1], v) <= 0) && (i < |all| ==> Cmp(v, all[i]) <= 0)
    ensures Stepwise(all[..i] + [v] + all[i..])
  {
    var more := all[..i] + [v] + all[i..];
    assert forall k :: 0 <= k < |more| ==> more[k] == if k < i then all[k] else if k == i then v else all[k - 1];
    forall k | 0 <= k < |more| - 1
      ensures InStep(more, k)
    {
      if k + 1 < i {
        assert InStep(all, k);
      } else if k > i {
        assert InStep(all, k - 1);
      }
    }
  }

  /** The names newer than a version. */
  ghost function Newer(names: set<Version>, v: Version): set<Version>
    requires AllWellFormed(names) && WellFormed(v)
  {
    set w | w in names && Cmp(v, w) < 0
  }

  /** What pruning leaves: the active version, and the newest `keep`. */
  ghost function Pruned(names: set<Version>, cur: Option<Version>, keep: int): set<Version>
    requires AllWellFormed(names)
  {
    set v | v in names && (cur == Some(v) || |Newer(names, v)| < keep)
  }

  /** The newest version that is not the active one. */
  ghost predicate IsPrevious(names: set<Version>, cur: Option<Version>, r: Option<Version>)
    requires AllWellFormed(names)
  {
    match r
    case None => forall v :: v in names ==> cur == Some(v)
    case Some(p) => p in names && cur != Some(p) && forall v :: v in names && cur != Some(v) && v != p ==> Cmp(v, p) < 0
  }

  lemma NewerAre(all: seq<Version>, i: nat)
    requires Ascending(all) && i < |all|
    ensures AllWellFormed(Elements(all)) && Newer(Elements(all), all[i]) == Elements(all[i + 1..])
  {
    var names, newer := Elements(all), all[i + 1..];
    forall v | v in Newer(names, all[i])
      ensures v in newer
    {
      var j :| 0 <= j < |all| && all[j] == v;
      CmpAntisymmetric(all[j], all[i]);
      if j > i {
        assert newer[j - i - 1] == v;
      }
    }
  }

  lemma AscendingIsSorted(all: seq<Version>, i: nat)
    requires Ascending(all) && i < |all|
    ensures AllWellFormed(Elements(all))
    ensures |Newer(Elements(all), all[i])| == |all| - 1 - i
  {
    NewerAre(all, i);
    AscendingIsDistinct(all);
    assert NoDuplicates(all[i + 1..]);
    SetOfDistinct(all[i + 1..]);
  }

  lemma AscendingIsDistinct(all: seq<Version>)
    requires Ascending(all)
    ensures NoDuplicates(all)
  {
    forall i, j | 0 <= i < j < |all|
      ensures all[i] != all[j]
    {
      CmpAntisymmetric(all[i], all[i]);
    }
  }

  lemma {:induction false} SetOfDistinct(s: seq<Version>)
    requires NoDuplicates(s)
    ensures |Elements(s)| == |s|
  {
    if s != [] {
      var n := |s| - 1;
      SetOfDistinct(s[..n]);
      assert Elements(s) == Elements(s[..n]) + {s[n]};
    }
  }

  /** The versions before position `from`, but for the active one. */
  function RemovedOf(all: seq<Version>, from: nat, cur: Option<Version>): seq<Version> {
    if all == [] then []
    else
      var n := |all| - 1;
      var before := RemovedOf(all[..n], from, cur);
      if n < from && cur != Some(all[n]) then before + [all[n]] else before
  }

  lemma LastIsNew(all: seq<Version>)
    requires NoDuplicates(all) && all != []
    ensures NoDuplicates(all[..|all| - 1]) && all[|all| - 1] !in all[..|all| - 1]
  {
  }

  lemma {:induction false} RemovedFrom(all: seq<Version>, from: nat, cur: Option<Version>)
    requires NoDuplicates(all)
    ensures NoDuplicates(RemovedOf(all, from, cur))
    ensures forall v :: v in RemovedOf(all, from, cur) ==> v in all
  {
    if all != [] {
      LastIsNew(all);
      RemovedFrom(all[..|all| - 1], from, cur);
    }
  }

  lemma {:induction false} RemovedAre(all: seq<Version>, from: nat, cur: Option<Version>, i: nat)
    requires NoDuplicates(all) && i < |all|
    ensures all[i] in RemovedOf(all, from, cur) <==> i < from && cur != Some(all[i])
  {
    var n := |all| - 1;
    LastIsNew(all);
    if i < n {
      RemovedAre(all[..n], from, cur, i);
    } else {
      RemovedFrom(all[..n], from, cur);
    }
  }

  lemma {:induction false} RemovedAscend(all: seq<Version>, from: nat, cur: Option<Version>)
    requires Ascending(all)
    ensures Ascending(RemovedOf(all, from, cur))
  {
    if all != [] {
      var n := |all| - 1;
      RemovedAscend(all[..n], from, cur);
      AscendingIsDistinct(all[..n]);
      RemovedFrom(all[..n], from, cur);
      var before := RemovedOf(all[..n], from, cur);
      forall w | w in before
        ensures WellFormed(w) && Cmp(w, all[n]) < 0
      {
        var k :| 0 <= k < n && all[..n][k] == w;
        assert all[k] == w;
      }
      forall j | 0 <= j < |before|
        ensures Cmp(before[j], all[n]) < 0
      {
        assert before[j] in before;
      }
    }
  }

  /** How many names a pruning leaves: the newest `keep`, or all, and the active one. */
  lemma {:induction false} RemovedCount(all: seq<Version>, from: nat, cur: Option<Version>)
    requires NoDuplicates(all)
    ensures var most := if from < |all| then from else |all|; most - 1 <= |RemovedOf(all, from, cur)| <= most
    ensures (forall v :: v in all ==> cur != Some(v)) ==>
              |RemovedOf(all, from, cur)| == if from < |all| then from else |all|
  {
    if all != [] {
      var n := |all| - 1;
      RemovedCount(all[..n], from, cur);
      LastIsNew(all);
    }
  }

  /** The last of a list that is not the active version. */
  function LastOther(all: seq<Version>, cur: Option<Version>): Option<Version> {
    if all == [] then None
    else if cur != Some(all[|all| - 1]) then Some(all[|all| - 1])
    else LastOther(all[..|all| - 1], cur)
  }

  lemma {:induction false} LastOtherIs(all: seq<Version>, cur: Option<Version>)
    ensures LastOther(all, cur).None? <==> forall v :: v in all ==> cur == Some(v)
    ensures LastOther(all, cur).Some? ==> LastOther(all, cur).value in all && cur != LastOther(all, cur)
  {
    if all != [] {
      LastOtherIs(all[..|all| - 1], cur);
      assert all == all[..|all| - 1] + [all[|all| - 1]];
    }
  }

  lemma {:induction false} LastOtherAt(all: seq<Version>, cur: Option<Version>, i: nat)
    requires Ascending(all) && i < |all| && cur != Some(all[i])
    ensures var r := LastOther(all, cur);
            r.Some? && WellFormed(r.value) && (r.value == all[i] || Cmp(all[i], r.value) < 0)
  {
    var n := |all| - 1;
    if cur == Some(all[n]) {
      FrontAscends(all);
      assert all[..n][i] == all[i];
      LastOtherAt(all[..n], cur, i);
    } else if i < n {
      assert Cmp(all[i], all[n]) < 0;
    }
  }

  lemma LastOtherIsPrevious(all: seq<Version>, cur: Option<Version>)
    requires Ascending(all) && AllWellFormed(Elements(all))
    ensures IsPrevious(Elements(all), cur, LastOther(all, cur))
  {
    LastOtherIs(all, cur);
    forall v | v in Elements(all) && cur != Some(v)
      ensures var r := LastOther(all, cur); r.Some? && WellFormed(r.value) && (r.value == v || Cmp(v, r.value) < 0)
    {
      var i :| 0 <= i < |all| && all[i] == v;
      LastOtherAt(all, cur, i);
    }
  }

  /** The directory of installed versions and its `current` link. */
  class Directory {
    var names: set<Version>
    var current: Option<Version>

    ghost predicate Valid()
      reads this
    {
      AllWellFormed(names)
    }

    method InstalledVersions() returns (all: seq<Version>)
      requires Valid()
      ensures Stepwise(all) && NoDuplicates(all) && names == Elements(all)
      ensures ToldApart(names) ==> Ascending(all)
    {
      all := [];
      var rest := names;
      while rest != {}
        invariant rest <= names && Stepwise(all) && NoDuplicates(all) && Elements(all) == names - rest
        decreases |rest|
      {
        var v :| v in rest;
        var i := Place(all, v);
        PlacedOnce(all, v, i, names, rest);
        all := all[..i] + [v] + all[i..];
        rest := rest - {v};
      }
      if ToldApart(names) {
        StepwiseAscends(all);
      }
    }

    method PreviousVersion() returns (r: Option<Version>)
      requires Valid()
      ensures r.None? <==> forall v :: v in names ==> current == Some(v)
      ensures r.Some? ==> r.value in names && current != r
      ensures ToldApart(names) ==> IsPrevious(names, current, r)
    {
      var all := InstalledVersions();
      r := None;
      for i := 0 to |all|
        invariant r == LastOther(all[..i], current)
      {
        assert all[..i + 1][..i] == all[..i];
        if current != Some(all[i]) {
          r := Some(all[i]);
        }
      }
      assert all[..|all|] == all;
      LastOtherIs(all, current);
      if ToldApart(names) {
        LastOtherIsPrevious(all, current);
      }
    }

    /** The loop over the names before position `from`, the active one kept. */
    method NotKept(all: seq<Version>, from: nat) returns (removed: seq<Version>)
      ensures removed == RemovedOf(all, from, current)
    {
      removed := [];
      for i := 0 to |all|
        invariant removed == RemovedOf(all[..i], from, current)
      {
        assert all[..i + 1][..i] == all[..i];
        if i < from && current != Some(all[i]) {
          removed := removed + [all[i]];
        }
      }
      assert all[..|all|] == all;
    }

    /**
     * The active version survives, with the newest `keep`; names that compare to zero may take each
     * other's place among those.
     */
    method PruneVersions(keep: int) returns (removed: seq<Version>)
      requires Valid()
      modifies this`names
      ensures Elements(removed) == old(names) - names && names <= old(names) && NoDuplicates(removed)
      ensures current.Some? && current.value in old(names) ==> current.value in names
      ensures var most := if keep < 0 then 0 else if keep < |old(names)| then keep else |old(names)|;
              most <= |names| <= most + 1 && (current.None? ==> |names| == most)
      ensures LeavesNewest(old(names), names, removed, current, keep)
    {
      var all := InstalledVersions();
      var from := if |all| - keep < 0 then 0 else if |all| - keep > |all| then |all| else |all| - keep;
      removed := NotKept(all, from);
      WhatIsLeft(all, from, current);
      PruneLeaves(all, names, from, current, keep);
      names := names - Elements(removed);
    }
  }

  lemma PlacedOnce(all: seq<Version>, v: Version, i: nat, names: set<Version>, rest: set<Version>)
    requires NoDuplicates(all) && i <= |all| && v in rest && rest <= names && Elements(all) == names - rest
    ensures var more := all[..i] + [v] + all[i..]; NoDuplicates(more) && Elements(more) == names - (rest - {v})
  {
    var more := all[..i] + [v] + all[i..];
    assert v !in all by {
      assert v !in Elements(all);
    }
    NewAmong(all, v, i);
    assert Elements(more) == Elements(all) + {v} by {
      assert all == all[..i] + all[i..];
    }
  }

  lemma NewAmong(all: seq<Version>, v: Version, i: nat)
    requires NoDuplicates(all) && i <= |all| && v !in all
    ensures NoDuplicates(all[..i] + [v] + all[i..])
  {
    var more := all[..i] + [v] + all[i..];
    forall j, k | 0 <= j < k < |more|
      ensures more[j] != more[k]
    {
      assert more[j] == if j < i then all[j] else if j == i then v else all[j - 1];
      assert more[k] == if k < i then all[k] else if k == i then v else all[k - 1];
    }
  }

  lemma WhatIsLeft(all: seq<Version>, from: nat, cur: Option<Version>)
    requires NoDuplicates(all) && from <= |all|
    ensures var names, removed := Elements(all), RemovedOf(all, from, cur);
            var left := names - Elements(removed);
            && NoDuplicates(removed) && Elements(removed) == names - left
            && (cur.Some? && cur.value in names ==> cur.value in left)
            && |all| == |names| && |all| - from <= |left| <= |all| - from + 1 && (cur.None? ==> |left| == |all| - from)
  {
    var names, removed := Elements(all), RemovedOf(all, from, cur);
    RemovedFrom(all, from, cur);
    RemovedCount(all, from, cur);
    SetOfDistinct(all);
    SetOfDistinct(removed);
    if cur.Some? && cur.value in names {
      var k :| 0 <= k < |all| && all[k] == cur.value;
      RemovedAre(all, from, cur, k);
    }
    assert |names - Elements(removed)| == |names| - |Elements(removed)|;
  }

  /** When the names are told apart, exactly the active version and the newest `keep` are left. */
  ghost predicate LeavesNewest(
      names: set<Version>, left: set<Version>, removed: seq<Version>, cur: Option<Version>, keep: int)
    requires AllWellFormed(names)
  {
    ToldApart(names) ==> left == Pruned(names, cur, keep) && Ascending(removed)
  }

  lemma PruneLeaves(all: seq<Version>, names: set<Version>, from: nat, cur: Option<Version>, keep: int)
    requires names == Elements(all) && AllWellFormed(names) && (ToldApart(names) ==> Ascending(all))
    requires from == if |all| - keep < 0 then 0 else if |all| - keep > |all| then |all| else |all| - keep
    ensures LeavesNewest(names, names - Elements(RemovedOf(all, from, cur)), RemovedOf(all, from, cur), cur, keep)
  {
    if ToldApart(names) {
      PrunedAre(all, from, cur, keep);
    }
  }

  /** The newest `keep` of an ascending list are those with fewer than `keep` above them. */
  lemma PrunedAre(all: seq<Version>, from: nat, cur: Option<Version>, keep: int)
    requires Ascending(all)
    requires from == if |all| - keep < 0 then 0 else if |all| - keep > |all| then |all| else |all| - keep
    ensures AllWellFormed(Elements(all))
    ensures Pruned(Elements(all), cur, keep) == Elements(all) - Elements(RemovedOf(all, from, cur))
    ensures Ascending(RemovedOf(all, from, cur))
  {
    AscendingIsDistinct(all);
    RemovedAscend(all, from, cur);
    var names, removed := Elements(all), RemovedOf(all, from, cur);
    forall v | v in names
      ensures WellFormed(v)
      ensures AllWellFormed(names) ==> (v in Pruned(names, cur, keep) <==> v !in removed)
    {
      var k :| 0 <= k < |all| && all[k] == v;
      AscendingIsSorted(all, k);
      RemovedAre(all, from, cur, k);
    }
  }

  ghost predicate Newest(names: set<Version>, cur: Option<Version>)
    requires AllWellFormed(names)
  {
    cur.Some? && cur.value in names && forall v :: v in names && v != cur.value ==> Cmp(v, cur.value) < 0
  }

  lemma NewerThanPrevious(names: set<Version>, cur: Option<Version>, p: Version)
    requires AllWellFormed(names) && ToldApart(names) && IsPrevious(names, cur, Some(p))
    ensures Newer(names, p) == if Newest(names, cur) then {cur.value} else {}
  {
    forall v | v in Newer(names, p)
      ensures cur == Some(v)
    {
      CmpAntisymmetric(p, v);
      CmpAntisymmetric(p, p);
    }
    if cur.Some? && cur.value in names {
      var c := cur.value;
      CmpAntisymmetric(p, c);
      if Cmp(p, c) < 0 {
        forall v | v in names && v != c
          ensures Cmp(v, c) < 0
        {
          if v != p {
            CmpTransitive(v, p, c);
          }
        }
      }
    }
  }

  /**
   * What `previousVersion` returns survives a pruning exactly when there is nothing to lose, or two
   * are kept, or one is kept and the active version is not the newest.
   */
  lemma PruningKeepsPrevious(names: set<Version>, cur: Option<Version>, keep: int, r: Option<Version>)
    requires AllWellFormed(names) && ToldApart(names) && IsPrevious(names, cur, r)
    ensures AllWellFormed(Pruned(names, cur, keep))
    ensures IsPrevious(Pruned(names, cur, keep), cur, r) <==> r.None? || keep >= 2 || (keep == 1 && !Newest(names, cur))
  {
    if r.Some? {
      NewerThanPrevious(names, cur, r.value);
    }
  }
}
