/** Small vocabulary shared by the other modules. */
module Common {

  datatype Option<+T> = None | Some(value: T)

  /** True when no element occurs twice. */
  ghost predicate NoDuplicates<T>(s: seq<T>) {
    forall i, j :: 0 <= i < j < |s| ==> s[i] != s[j]
  }

  lemma {:induction false} CountedOnce<T>(s: seq<T>, x: T)
    requires NoDuplicates(s)
    ensures multiset(s)[x] == if x in s then 1 else 0
  {
    if s != [] {
      var rest := s[..|s| - 1];
      CountedOnce(rest, x);
      assert s == rest + [s[|s| - 1]];
    }
  }

  // ----------------------------------------------------------------- text order

  /** The order of strings by their characters, as SQL text columns and `<` on strings use it. */
  predicate TextLess(a: string, b: string) {
    b != [] && (a == [] || a[0] < b[0] || (a[0] == b[0] && TextLess(a[1..], b[1..])))
  }

  lemma {:induction false} TextLessAppend(p: string, q: string, a: string, b: string)
    requires |p| == |q|
    ensures TextLess(p + a, q + b) <==> TextLess(p, q) || (p == q && TextLess(a, b))
  {
    if p == [] {
      assert p + a == a && q + b == b;
    } else {
      assert (p + a)[1..] == p[1..] + a && (q + b)[1..] == q[1..] + b;
      assert p == [p[0]] + p[1..] && q == [q[0]] + q[1..];
      TextLessAppend(p[1..], q[1..], a, b);
    }
  }

  lemma {:induction false} TextLessTotal(a: string, b: string)
    ensures !(TextLess(a, b) && TextLess(b, a))
    ensures TextLess(a, b) || TextLess(b, a) || a == b
    ensures !TextLess(a, a)
  {
    if a != [] && b != [] && a[0] == b[0] {
      TextLessTotal(a[1..], b[1..]);
      assert a == [a[0]] + a[1..] && b == [b[0]] + b[1..];
    }
    if a != [] {
      TextLessIrreflexive(a);
    }
  }

  lemma {:induction false} TextLessIrreflexive(a: string)
    ensures !TextLess(a, a)
  {
    if a != [] {
      TextLessIrreflexive(a[1..]);
    }
  }

  lemma {:induction false} TextLessTransitive(a: string, b: string, c: string)
    requires TextLess(a, b) && TextLess(b, c)
    ensures TextLess(a, c)
  {
    if a != [] && a[0] == b[0] && b[0] == c[0] {
      TextLessTransitive(a[1..], b[1..], c[1..]);
    }
  }

  // -------------------------------------------------------------------- numerals

  predicate IsDigit(c: char) {
    '0' <= c <= '9'
  }

  /** A number in decimal. */
  function Dec(n: nat): string {
    if n < 10 then [('0' as int + n) as char] else Dec(n / 10) + [('0' as int + n % 10) as char]
  }

  /** The number that digits read as, most significant first. */
  function Value(ds: string): int {
    if ds == "" then 0 else 10 * Value(ds[..|ds| - 1]) + (ds[|ds| - 1] as int - '0' as int)
  }

  /** `ds` is the number `n` as it is written: digits, and no zero in front of another digit. */
  ghost predicate Numeral(ds: string, n: int) {
    && ds != "" && (forall i :: 0 <= i < |ds| ==> IsDigit(ds[i]))
    && Value(ds) == n && (|ds| > 1 ==> ds[0] != '0')
  }

  lemma {:induction false} DecIsNumeral(n: nat)
    ensures Numeral(Dec(n), n) && (n > 0 ==> Dec(n)[0] != '0')
  {
    if n < 10 {
      assert Dec(n)[..0] == "";
    } else {
      DecIsNumeral(n / 10);
      assert Dec(n)[..|Dec(n)| - 1] == Dec(n / 10);
    }
  }

  lemma {:induction false} NumeralsAreNatural(ds: string)
    requires forall i :: 0 <= i < |ds| ==> IsDigit(ds[i])
    ensures Value(ds) >= 0 && (ds != "" && ds[0] != '0' ==> Value(ds) > 0)
  {
    if ds != "" {
      NumeralsAreNatural(ds[..|ds| - 1]);
    }
  }

  /** A number is written in one way only. */
  lemma {:induction false} OneNumeral(ds: string, es: string, n: int)
    requires Numeral(ds, n) && Numeral(es, n)
    ensures ds == es
    decreases |ds|
  {
    var d, e := ds[..|ds| - 1], es[..|es| - 1];
    NumeralsAreNatural(d);
    NumeralsAreNatural(e);
    assert ds == d + [ds[|d|]] && es == e + [es[|e|]];
    assert Value(d) == Value(e) && ds[|d|] == es[|e|];
    if d != "" && e != "" {
      OneNumeral(d, e, Value(d));
    }
  }
}
