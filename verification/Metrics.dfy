/**
 * Series keys and histograms of the metrics registry (src/metrics.ts). Label values are
 * escaped by three successive replacements; observations are real numbers.
 */
module Metrics {
  import opened Common

  // ----------------------------------------------------------------------- escaping

  /** A global `replace` of one character. */
  function Replace(s: string, c: char, put: string): string {
    if s == "" then "" else (if s[0] == c then put else [s[0]]) + Replace(s[1..], c, put)
  }

  /** The value as `renderLabels` writes it: backslashes, then quotes, then newlines. */
  function Escaped(v: string): string {
    Replace(Replace(Replace(v, '\\', ['\\', '\\']), '"', ['\\', '"']), '\n', ['\\', 'n'])
  }

  /** One character at a time. */
  function EscapeChar(c: char): string {
    if c == '\\' then ['\\', '\\'] else if c == '"' then ['\\', '"'] else if c == '\n' then ['\\', 'n'] else [c]
  }

  function Escape(v: string): string {
    if v == "" then "" else EscapeChar(v[0]) + Escape(v[1..])
  }

  lemma {:induction false} ReplaceSplits(a: string, b: string, c: char, put: string)
    ensures Replace(a + b, c, put) == Replace(a, c, put) + Replace(b, c, put)
  {
    if a == "" {
      assert a + b == b;
    } else {
      assert (a + b)[1..] == a[1..] + b;
      ReplaceSplits(a[1..], b, c, put);
    }
  }

  lemma ReplaceNone(s: string, c: char, put: string)
    requires |s| <= 2 && c !in s
    ensures Replace(s, c, put) == s
  {
    if |s| > 0 {
      assert s[0] in s;
      if |s| == 2 {
        assert s[1] in s && s[1..] == [s[1]] && s[1..][1..] == "";
        assert Replace(s[1..], c, put) == [s[1]];
      } else {
        assert s[1..] == "";
      }
    }
  }

  lemma EscapesOneChar(c: char)
    ensures Escaped([c]) == EscapeChar(c)
  {
    var s := [c];
    assert s[1..] == "";
    if c == '\\' {
      assert Replace(s, '\\', ['\\', '\\']) == ['\\', '\\'];
      ReplaceNone(['\\', '\\'], '"', ['\\', '"']);
      ReplaceNone(['\\', '\\'], '\n', ['\\', 'n']);
    } else {
      ReplaceNone(s, '\\', ['\\', '\\']);
      if c == '"' {
        assert Replace(s, '"', ['\\', '"']) == ['\\', '"'];
        ReplaceNone(['\\', '"'], '\n', ['\\', 'n']);
      } else {
        ReplaceNone(s, '"', ['\\', '"']);
        if c == '\n' {
          assert Replace(s, '\n', ['\\', 'n']) == ['\\', 'n'];
        } else {
          ReplaceNone(s, '\n', ['\\', 'n']);
        }
      }
    }
  }

  /** The three replacements, each over the last one's output, are one escape per character. */
  lemma {:induction false} ReplacesAreOneEscape(v: string)
    ensures Escaped(v) == Escape(v)
  {
    if v != "" {
      assert v == [v[0]] + v[1..];
      var a, b := [v[0]], v[1..];
      ReplaceSplits(a, b, '\\', ['\\', '\\']);
      ReplaceSplits(Replace(a, '\\', ['\\', '\\']), Replace(b, '\\', ['\\', '\\']), '"', ['\\', '"']);
      ReplaceSplits(Replace(Replace(a, '\\', ['\\', '\\']), '"', ['\\', '"']),
                    Replace(Replace(b, '\\', ['\\', '\\']), '"', ['\\', '"']),
                    '\n', ['\\', 'n']);
      EscapesOneChar(v[0]);
      ReplacesAreOneEscape(b);
    }
  }

  // ------------------------------------------------------------------------- labels

  datatype Pair = Pair(key: string, value: string)

  type Labels = map<string, string>

  lemma SmallestKey(keys: set<string>) returns (k: string)
    requires keys != {}
    ensures k in keys && forall j :: j in keys && j != k ==> TextLess(k, j)
  {
    var c :| c in keys;
    var rest := keys - {c};
    if rest == {} {
      assert keys == {c};
      k := c;
    } else {
      var m := SmallestKey(rest);
      TextLessTotal(c, m);
      k := if TextLess(m, c) then m else c;
      forall j | j in keys && j != k
        ensures TextLess(k, j)
      {
        if k == c && j != m {
          TextLessTransitive(c, m, j);
        }
      }
    }
  }

  /** The keys of a label map in sorted order. */
  ghost function SortedKeys(keys: set<string>): (ks: seq<string>)
    ensures forall k :: k in ks <==> k in keys
    ensures forall i, j :: 0 <= i < j < |ks| ==> TextLess(ks[i], ks[j])
  {
    if keys == {} then []
    else
      assert exists k :: k in keys && forall j :: j in keys && j != k ==> TextLess(k, j) by {
        var k := SmallestKey(keys);
      }
      var k :| k in keys && forall j :: j in keys && j != k ==> TextLess(k, j);
      [k] + SortedKeys(keys - {k})
  }

  ghost function PairsOf(ks: seq<string>, labels: Labels): (ps: seq<Pair>)
    requires forall k :: k in ks ==> k in labels
    ensures |ps| == |ks| && forall i :: 0 <= i < |ps| ==> ps[i] == Pair(ks[i], labels[ks[i]])
  {
    seq(|ks|, i requires 0 <= i < |ks| => Pair(ks[i], labels[ks[i]]))
  }

  function RenderPair(p: Pair): string {
    p.key + (['=', '"'] + (Escaped(p.value) + ['"']))
  }

  function RenderPairs(ps: seq<Pair>): string
    requires ps != []
  {
    if |ps| == 1 then RenderPair(ps[0]) + ['}'] else RenderPair(ps[0]) + ([','] + RenderPairs(ps[1..]))
  }

  function RenderLabels(ps: seq<Pair>): string {
    if ps == [] then "" else ['{'] + RenderPairs(ps)
  }

  ghost function SeriesKey(labels: Labels): string {
    RenderLabels(PairsOf(SortedKeys(labels.Keys), labels))
  }

  // ------------------------------------------------------------------------ parsing

  /** A key up to the first `=` before a quote, and what follows that `=`. */
  function ParseKey(s: string): Option<(string, string)> {
    if |s| < 2 then None
    else if s[0] == '=' && s[1] == '"' then Some(("", s[1..]))
    else
      var r := ParseKey(s[1..]);
      if r.None? then None else Some(([s[0]] + r.value.0, r.value.1))
  }

  /** A value up to its closing quote, undoing the escape. */
  function ParseValue(s: string): Option<(string, string)> {
    if s == "" then None
    else if s[0] == '"' then Some(("", s[1..]))
    else if s[0] == '\\' then
      if |s| < 2 then None
      else
        var r := ParseValue(s[2..]);
        if r.None? then None else Some(([if s[1] == 'n' then '\n' else s[1]] + r.value.0, r.value.1))
    else
      var r := ParseValue(s[1..]);
      if r.None? then None else Some(([s[0]] + r.value.0, r.value.1))
  }

  /** A key that does not hold `=` before a quote. */
  predicate Unmarked(k: string) {
    forall i :: 0 <= i < |k| - 1 ==> !(k[i] == '=' && k[i + 1] == '"')
  }

  lemma {:induction false} KeyRoundTrip(k: string, rest: string)
    requires Unmarked(k)
    ensures ParseKey(k + (['=', '"'] + rest)) == Some((k, ['"'] + rest))
  {
    var s := k + (['=', '"'] + rest);
    if k == "" {
      assert s[1..] == ['"'] + rest;
    } else {
      assert s[1..] == k[1..] + (['=', '"'] + rest);
      KeyRoundTrip(k[1..], rest);
      assert [k[0]] + k[1..] == k;
    }
  }

  /** One escaped character is read back as itself. */
  lemma EscapedCharReads(c: char, more: string)
    requires ParseValue(more).Some?
    ensures ParseValue(EscapeChar(c) + more) == Some(([c] + ParseValue(more).value.0, ParseValue(more).value.1))
  {
    var e := EscapeChar(c);
    assert (e + more)[|e|..] == more;
  }

  /** The escape is undone, and its end found, whatever follows. */
  lemma {:induction false} ValueRoundTrip(v: string, rest: string)
    ensures ParseValue(Escape(v) + (['"'] + rest)) == Some((v, rest))
  {
    var tail := ['"'] + rest;
    if v == "" {
      assert Escape(v) + tail == tail && tail[1..] == rest;
    } else {
      var e, more := EscapeChar(v[0]), Escape(v[1..]) + tail;
      assert Escape(v) + tail == e + more;
      ValueRoundTrip(v[1..], rest);
      EscapedCharReads(v[0], more);
      assert [v[0]] + v[1..] == v;
    }
  }

  function ParsePairs(s: string): Option<seq<Pair>>
    decreases |s|
  {
    var k := ParseKey(s);
    if k.None? || |k.value.1| >= |s| || k.value.1 == "" || k.value.1[0] != '"' then None
    else
      var v := ParseValue(k.value.1[1..]);
      if v.None? || |v.value.1| >= |k.value.1| || v.value.1 == "" then None
      else
        var p, rest := Pair(k.value.0, v.value.0), v.value.1;
        if rest == ['}'] then Some([p])
        else if rest[0] != ',' then None
        else
          var ps := ParsePairs(rest[1..]);
          if ps.None? then None else Some([p] + ps.value)
  }

  function ParseLabels(s: string): Option<seq<Pair>> {
    if s == "" then Some([]) else if s[0] != '{' then None else ParsePairs(s[1..])
  }

  ghost predicate KeysUnmarked(ps: seq<Pair>) {
    forall i :: 0 <= i < |ps| ==> Unmarked(ps[i].key)
  }

  /** One rendered pair in front of any text that goes on with a mark. */
  lemma PairRoundTrip(p: Pair, rest: string)
    requires Unmarked(p.key) && rest != ""
    ensures var s := RenderPair(p) + rest;
            ParsePairs(s) ==
              if rest == ['}'] then Some([p])
              else if rest[0] != ',' then None
              else if ParsePairs(rest[1..]).None? then None
              else Some([p] + ParsePairs(rest[1..]).value)
  {
    var s := RenderPair(p) + rest;
    ReplacesAreOneEscape(p.value);
    var tail := Escape(p.value) + (['"'] + rest);
    assert s == p.key + (['=', '"'] + tail);
    KeyRoundTrip(p.key, tail);
    assert (['"'] + tail)[1..] == tail;
    ValueRoundTrip(p.value, rest);
  }

  lemma {:induction false} PairsRoundTrip(ps: seq<Pair>)
    requires ps != [] && KeysUnmarked(ps)
    ensures ParsePairs(RenderPairs(ps)) == Some(ps)
  {
    if |ps| == 1 {
      PairRoundTrip(ps[0], ['}']);
      assert [ps[0]] == ps;
    } else {
      var more := RenderPairs(ps[1..]);
      PairRoundTrip(ps[0], [','] + more);
      PairsRoundTrip(ps[1..]);
      assert ([','] + more)[1..] == more;
      assert [ps[0]] + ps[1..] == ps;
    }
  }

  lemma LabelsRoundTrip(ps: seq<Pair>)
    requires KeysUnmarked(ps)
    ensures ParseLabels(RenderLabels(ps)) == Some(ps)
  {
    if ps != [] {
      PairsRoundTrip(ps);
      assert (['{'] + RenderPairs(ps))[1..] == RenderPairs(ps);
    }
  }

  lemma PairTells(ks: seq<string>, a: Labels, js: seq<string>, b: Labels, k: string)
    requires (forall k :: k in ks ==> k in a) && (forall k :: k in js ==> k in b)
    requires PairsOf(ks, a) == PairsOf(js, b) && k in ks
    ensures k in b && a[k] == b[k]
  {
    var i :| 0 <= i < |ks| && ks[i] == k;
    assert PairsOf(ks, a)[i] == Pair(k, a[k]) && PairsOf(js, b)[i] == Pair(js[i], b[js[i]]);
    assert js[i] in js;
  }

  lemma PairsTellLabels(a: Labels, b: Labels)
    requires PairsOf(SortedKeys(a.Keys), a) == PairsOf(SortedKeys(b.Keys), b)
    ensures a == b
  {
    forall k | k in a
      ensures k in b && a[k] == b[k]
    {
      PairTells(SortedKeys(a.Keys), a, SortedKeys(b.Keys), b, k);
    }
    forall k | k in b
      ensures k in a
    {
      PairTells(SortedKeys(b.Keys), b, SortedKeys(a.Keys), a, k);
    }
  }

  // --------------------------------------------------------------- telling series apart

  /** A key as it stands before its value. */
  function Opened(k: string): string {
    k + ['=', '"']
  }

  /** No key, with the mark that ends it, starts another: the keys are a prefix code. */
  ghost predicate PrefixFree(keys: set<string>) {
    forall k, j :: k in keys && j in keys && Opened(k) <= Opened(j) ==> k == j
  }

  lemma OpenedTells(k: string, j: string)
    requires Opened(k) == Opened(j)
    ensures k == j
  {
    assert Opened(k)[..|k|] == k && Opened(j)[..|j|] == j;
  }

  /** Of two starts of one text one starts the other. */
  lemma StartsOfOne(x: string, y: string, t: string)
    requires x <= t && y <= t
    ensures x <= y || y <= x
  {
  }

  lemma SamePair(p: Pair, q: Pair, r: string, s: string, keys: set<string>)
    requires PrefixFree(keys) && p.key in keys && q.key in keys
    requires RenderPair(p) + r == RenderPair(q) + s
    ensures p == q && r == s
  {
    var t := RenderPair(p) + r;
    var u, v := Escaped(p.value) + (['"'] + r), Escaped(q.value) + (['"'] + s);
    assert t == Opened(p.key) + u && t == Opened(q.key) + v;
    StartsOfOne(Opened(p.key), Opened(q.key), t);
    assert p.key == q.key;
    assert u == t[|Opened(p.key)|..] && v == t[|Opened(p.key)|..];
    ReplacesAreOneEscape(p.value);
    ReplacesAreOneEscape(q.value);
    ValueRoundTrip(p.value, r);
    ValueRoundTrip(q.value, s);
  }

  ghost predicate KeysIn(ps: seq<Pair>, keys: set<string>) {
    forall i :: 0 <= i < |ps| ==> ps[i].key in keys
  }

  lemma {:induction false} SameLists(ps: seq<Pair>, qs: seq<Pair>, keys: set<string>)
    requires PrefixFree(keys) && KeysIn(ps, keys) && KeysIn(qs, keys) && ps != [] && qs != []
    requires RenderPairs(ps) == RenderPairs(qs)
    ensures ps == qs
  {
    var r := if |ps| == 1 then ['}'] else [','] + RenderPairs(ps[1..]);
    var s := if |qs| == 1 then ['}'] else [','] + RenderPairs(qs[1..]);
    SamePair(ps[0], qs[0], r, s, keys);
    assert r[0] == s[0];
    if |ps| > 1 {
      assert r[1..] == RenderPairs(ps[1..]) && s[1..] == RenderPairs(qs[1..]);
      SameLists(ps[1..], qs[1..], keys);
      assert ps == [ps[0]] + ps[1..] && qs == [qs[0]] + qs[1..];
    }
  }

  lemma SortedKeysIn(a: Labels)
    ensures KeysIn(PairsOf(SortedKeys(a.Keys), a), a.Keys)
  {
    var ks := SortedKeys(a.Keys);
    assert forall i :: 0 <= i < |ks| ==> ks[i] in ks;
  }

  /** Label maps over a prefix code of keys, as identifiers are, share a series only when they are the same map. */
  lemma SeriesKeyIsInjective(a: Labels, b: Labels)
    requires PrefixFree(a.Keys + b.Keys)
    ensures SeriesKey(a) == SeriesKey(b) <==> a == b
  {
    var ps, qs := PairsOf(SortedKeys(a.Keys), a), PairsOf(SortedKeys(b.Keys), b);
    SortedKeysIn(a);
    SortedKeysIn(b);
    if SeriesKey(a) == SeriesKey(b) {
      if ps != [] && qs != [] {
        assert RenderLabels(ps)[1..] == RenderPairs(ps) && RenderLabels(qs)[1..] == RenderPairs(qs);
        SameLists(ps, qs, a.Keys + b.Keys);
      }
      assert ps == qs;
      PairsTellLabels(a, b);
    }
  }

  /** Keys without `="` in them, and so identifiers, are a prefix code. */
  lemma UnmarkedIsPrefixFree(keys: set<string>)
    requires forall k :: k in keys ==>
               || (forall i :: 0 <= i < |k| - 1 ==> !(k[i] == '=' && k[i + 1] == '"'))
               || (forall i :: 0 <= i < |k| ==>
                     'a' <= k[i] <= 'z' || 'A' <= k[i] <= 'Z' || k[i] == '_' || '0' <= k[i] <= '9')
    ensures PrefixFree(keys)
  {
    forall k, j | k in keys && j in keys && Opened(k) <= Opened(j)
      ensures k == j
    {
      var n := |k|;
      assert Opened(j)[..|Opened(k)|] == Opened(k);
      assert Opened(k)[n] == '=' && Opened(k)[n + 1] == '"';
      assert Opened(j)[n] == '=' && Opened(j)[n + 1] == '"';
      assert !(n + 1 < |j|);
      assert |k| == |j|;
      OpenedTells(k, j);
    }
  }

  lemma PlainPair(key: string, c: char)
    requires EscapeChar(c) == [c]
    ensures RenderPair(Pair(key, [c])) == key + ['=', '"', c, '"']
  {
    EscapesOneChar(c);
    assert ['=', '"'] + ([c] + ['"']) == ['=', '"', c, '"'];
  }

  /** One pair whose key spells out another pair and a key. */
  lemma PairsCollide(x: char, y: char)
    requires EscapeChar(x) == [x] && EscapeChar(y) == [y]
    ensures RenderLabels([Pair(['a'], [x]), Pair(['b'], [y])]) ==
            RenderLabels([Pair(['a', '=', '"', x, '"', ',', 'b'], [y])])
  {
    var two := [Pair(['a'], [x]), Pair(['b'], [y])];
    var one := [Pair(['a', '=', '"', x, '"', ',', 'b'], [y])];
    PlainPair(['a'], x);
    PlainPair(['b'], y);
    PlainPair(one[0].key, y);
    assert two[1..] == [Pair(['b'], [y])];
    var end := ['=', '"', y, '"'];
    assert RenderPairs(two) == (['a'] + ['=', '"', x, '"']) + ([','] + ((['b'] + end) + ['}']));
    assert RenderPairs(one) == (['a', '=', '"', x, '"', ',', 'b'] + end) + ['}'];
    assert RenderPairs(two) == RenderPairs(one);
  }

  lemma SortedOne(k: string)
    ensures SortedKeys({k}) == [k]
  {
    assert {k} - {k} == {};
    assert SortedKeys({k})[0] in {k};
  }

  lemma SortedTwo(k: string, j: string)
    requires TextLess(k, j)
    ensures SortedKeys({k, j}) == [k, j]
  {
    TextLessTotal(k, j);
    TextLessIrreflexive(k);
    SortedOne(j);
    var ks := SortedKeys({k, j});
    assert ks[0] in {k, j};
    assert j in ks && k in ks;
    assert {k, j} - {k} == {j};
  }

  /** Without a prefix code two different maps can share a series: one's key spells out the other's labels. */
  lemma OtherKeysCollide(x: char, y: char)
    requires EscapeChar(x) == [x] && EscapeChar(y) == [y]
    ensures var a: Labels := map[['a'] := [x], ['b'] := [y]];
            var b: Labels := map[['a', '=', '"', x, '"', ',', 'b'] := [y]];
            a != b && SeriesKey(a) == SeriesKey(b)
  {
    var k: string := ['a', '=', '"', x, '"', ',', 'b'];
    var a: Labels, b: Labels := map[['a'] := [x], ['b'] := [y]], map[k := [y]];
    assert ['a'] in a && ['a'] !in b by {
      assert |['a']| != |k|;
    }
    SortedTwo(['a'], ['b']);
    SortedOne(k);
    assert a.Keys == {['a'], ['b']} && b.Keys == {k};
    assert PairsOf([['a'], ['b']], a) == [Pair(['a'], [x]), Pair(['b'], [y])];
    assert PairsOf([k], b) == [Pair(k, [y])];
    PairsCollide(x, y);
  }

  // --------------------------------------------------------------------- counters

  datatype Increment = Increment(labels: Labels, amount: int)

  /** A counter's series after its increments. */
  ghost function SeriesAfter(incs: seq<Increment>): map<string, int> {
    if incs == [] then map[]
    else
      var before, i := SeriesAfter(incs[..|incs| - 1]), incs[|incs| - 1];
      var key := SeriesKey(i.labels);
      before[key := (if key in before then before[key] else 0) + i.amount]
  }

  /** The increments made with exactly these labels. */
  function TotalOf(incs: seq<Increment>, labels: Labels): int {
    if incs == [] then 0
    else TotalOf(incs[..|incs| - 1], labels) + if incs[|incs| - 1].labels == labels then incs[|incs| - 1].amount else 0
  }

  ghost predicate Made(incs: seq<Increment>, labels: Labels) {
    exists i :: 0 <= i < |incs| && incs[i].labels == labels
  }

  lemma LastMade(incs: seq<Increment>, labels: Labels)
    requires incs != []
    ensures Made(incs, labels) <==> Made(incs[..|incs| - 1], labels) || incs[|incs| - 1].labels == labels
  {
    assert incs == incs[..|incs| - 1] + [incs[|incs| - 1]];
  }

  /** Each series holds the increments of its own label map and no other's. */
  lemma {:induction false} SeriesDoNotMix(incs: seq<Increment>, labels: Labels, keys: set<string>)
    requires PrefixFree(keys) && labels.Keys <= keys && forall i :: 0 <= i < |incs| ==> incs[i].labels.Keys <= keys
    ensures var s, key := SeriesAfter(incs), SeriesKey(labels);
            && (key in s <==> Made(incs, labels))
            && TotalOf(incs, labels) == if key in s then s[key] else 0
  {
    if incs != [] {
      var n := |incs| - 1;
      SeriesDoNotMix(incs[..n], labels, keys);
      SeriesKeyIsInjective(incs[n].labels, labels);
      LastMade(incs, labels);
    }
  }

  // -------------------------------------------------------------------- histograms

  /** The first bucket that holds a value, or the number of buckets. */
  function BucketOf(buckets: seq<real>, value: real): (i: nat)
    ensures i <= |buckets|
    ensures forall j :: 0 <= j < i ==> value > buckets[j]
    ensures i < |buckets| ==> value <= buckets[i]
  {
    if buckets == [] then 0 else if value <= buckets[0] then 0 else 1 + BucketOf(buckets[1..], value)
  }

  ghost predicate Sorted(buckets: seq<real>) {
    forall i, j :: 0 <= i < j < |buckets| ==> buckets[i] <= buckets[j]
  }

  /** The observations that first fit bucket `i`. */
  ghost function InBucket(buckets: seq<real>, seen: seq<real>, i: nat): nat {
    if seen == [] then 0
    else InBucket(buckets, seen[..|seen| - 1], i) + if BucketOf(buckets, seen[|seen| - 1]) == i then 1 else 0
  }

  /** The observations at or below a bound. */
  ghost function AtOrBelow(seen: seq<real>, bound: real): nat {
    if seen == [] then 0 else AtOrBelow(seen[..|seen| - 1], bound) + if seen[|seen| - 1] <= bound then 1 else 0
  }

  ghost function SumOf(seen: seq<real>): real {
    if seen == [] then 0.0 else SumOf(seen[..|seen| - 1]) + seen[|seen| - 1]
  }

  /** The observations that first fit one of the buckets up to `i`. */
  ghost function UpTo(buckets: seq<real>, seen: seq<real>, i: nat): nat {
    if i == 0 then InBucket(buckets, seen, 0) else UpTo(buckets, seen, i - 1) + InBucket(buckets, seen, i)
  }

  lemma {:induction false} UpToStep(buckets: seq<real>, seen: seq<real>, v: real, i: nat)
    ensures UpTo(buckets, seen + [v], i) == UpTo(buckets, seen, i) + if BucketOf(buckets, v) <= i then 1 else 0
  {
    assert (seen + [v])[..|seen|] == seen;
    if i > 0 {
      UpToStep(buckets, seen, v, i - 1);
    }
  }

  lemma {:induction false} UpToNone(buckets: seq<real>, i: nat)
    ensures UpTo(buckets, [], i) == 0
  {
    if i > 0 {
      UpToNone(buckets, i - 1);
    }
  }

  /** Counting by first bucket and adding up is counting at or below the bound. */
  lemma {:induction false} UpToIsAtOrBelow(buckets: seq<real>, seen: seq<real>, i: nat)
    requires Sorted(buckets) && i < |buckets|
    ensures UpTo(buckets, seen, i) == AtOrBelow(seen, buckets[i]) <= |seen|
  {
    if seen == [] {
      UpToNone(buckets, i);
    } else {
      var n := |seen| - 1;
      UpToIsAtOrBelow(buckets, seen[..n], i);
      assert seen == seen[..n] + [seen[n]];
      UpToStep(buckets, seen[..n], seen[n], i);
      var b := BucketOf(buckets, seen[n]);
      assert b <= i ==> buckets[b] <= buckets[i];
    }
  }

  lemma {:induction false} BoundsNest(seen: seq<real>, x: real, y: real)
    requires x <= y
    ensures AtOrBelow(seen, x) <= AtOrBelow(seen, y) <= |seen|
  {
    if seen != [] {
      BoundsNest(seen[..|seen| - 1], x, y);
    }
  }

  /** One histogram series. */
  class Histogram {
    const buckets: seq<real>
    var counts: seq<nat>
    var sum: real
    var count: nat
    ghost var seen: seq<real>

    ghost predicate Valid()
      reads this
    {
      && Sorted(buckets) && |counts| == |buckets| && count == |seen| && sum == SumOf(seen)
      && forall i :: 0 <= i < |counts| ==> counts[i] == InBucket(buckets, seen, i)
    }

    constructor (bounds: seq<real>)
      requires Sorted(bounds)
      ensures Valid() && buckets == bounds && seen == []
    {
      buckets := bounds;
      counts := seq(|bounds|, i => 0);
      sum := 0.0;
      count := 0;
      seen := [];
    }

    method Observe(value: real)
      requires Valid()
      modifies this
      ensures Valid() && seen == old(seen) + [value]
      ensures sum == old(sum) + value && count == old(count) + 1
    {
      var idx := 0;
      while idx < |buckets| && value > buckets[idx]
        invariant idx <= |buckets| && forall j :: 0 <= j < idx ==> value > buckets[j]
      {
        idx := idx + 1;
      }
      assert idx == BucketOf(buckets, value);
      assert (seen + [value])[..|seen|] == seen;
      if idx < |buckets| {
        counts := counts[idx := counts[idx] + 1];
      }
      sum := sum + value;
      count := count + 1;
      seen := seen + [value];
    }

    /** The rendered buckets, cumulated, and the `+Inf` bucket, which is the count. */
    method Render() returns (cumulative: seq<nat>, inf: nat)
      requires Valid()
      ensures |cumulative| == |buckets| && inf == |seen|
      ensures forall i :: 0 <= i < |buckets| ==> cumulative[i] == AtOrBelow(seen, buckets[i])
      ensures forall i, j :: 0 <= i <= j < |buckets| ==> cumulative[i] <= cumulative[j] <= inf
    {
      cumulative := [];
      var cum: nat := 0;
      for i := 0 to |buckets|
        invariant |cumulative| == i && cum == if i == 0 then 0 else UpTo(buckets, seen, i - 1)
        invariant forall j :: 0 <= j < i ==> cumulative[j] == AtOrBelow(seen, buckets[j])
      {
        cum := cum + counts[i];
        UpToIsAtOrBelow(buckets, seen, i);
        cumulative := cumulative + [cum];
      }
      inf := count;
      forall i, j | 0 <= i <= j < |buckets|
        ensures cumulative[i] <= cumulative[j] <= inf
      {
        BoundsNest(seen, buckets[i], buckets[j]);
      }
    }
  }
}
