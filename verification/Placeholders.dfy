/**
 * `toPositional` (src/db/client.ts): `?` placeholders become `$1`..`$n`, except inside
 * quotes, comments and dollar quotes. A tokenizer cuts the text into its regions; the
 * scanner's nested loops are proved to print its pieces with the bare `?`s numbered.
 */
module Placeholders {
  import opened Common

  datatype Piece =
    | Quote(text: string)   // 'it''s', closed or running to the end
    | Ident(text: string)   // "name"
    | Line(text: string)    // -- up to, not including, the newline
    | Block(text: string)   // /* ... */
    | Dollar(text: string)  // $tag$ ... $tag$
    | Mark                  // a bare ?
    | Bare(c: char)

  // ------------------------------------------------------------ where a region ends

  predicate IsWord(c: char) {
    'A' <= c <= 'Z' || 'a' <= c <= 'z' || c == '_' || IsDigit(c)
  }

  /** The rest of a quoted region, after its opening quote `q`; a doubled quote does not end it. */
  function QuoteLen(s: string, q: char): (n: nat)
    ensures n <= |s|
  {
    if s == "" then 0
    else if s[0] != q then 1 + QuoteLen(s[1..], q)
    else if |s| > 1 && s[1] == q then 2 + QuoteLen(s[2..], q)
    else 1
  }

  /** Up to the newline, or to the end. */
  function LineLen(s: string): (n: nat)
    ensures n <= |s|
  {
    if s == "" || s[0] == '\n' then 0 else 1 + LineLen(s[1..])
  }

  predicate StartsWith(s: string, p: string) {
    |p| <= |s| && s[..|p|] == p
  }

  /** Through the first occurrence of `close`, or to the end. */
  function CloseLen(s: string, close: string): (n: nat)
    ensures n <= |s|
  {
    if s == "" then 0
    else if StartsWith(s, close) then |close|
    else 1 + CloseLen(s[1..], close)
  }

  function WordRun(s: string): (n: nat)
    ensures n <= |s|
  {
    if s == "" || !IsWord(s[0]) then 0 else 1 + WordRun(s[1..])
  }

  /** The length of a dollar quote's opening `$tag$` (the tag may be empty and starts with no digit), or 0. */
  function OpenLen(s: string): (n: nat)
    ensures n <= |s| && (n > 0 ==> n >= 2)
  {
    if s == "" || s[0] != '$' then 0
    else
      var r := WordRun(s[1..]);
      if 1 + r < |s| && s[1 + r] == '$' && (r == 0 || !IsDigit(s[1])) then r + 2 else 0
  }

  // --------------------------------------------------------------------- tokenizer

  function Head(s: string): Piece
    requires s != ""
  {
    if s[0] == '\'' then Quote(s[..1 + QuoteLen(s[1..], '\'')])
    else if s[0] == '"' then Ident(s[..1 + QuoteLen(s[1..], '"')])
    else if StartsWith(s, "--") then Line(s[..LineLen(s)])
    else if StartsWith(s, "/*") then Block(s[..2 + CloseLen(s[2..], "*/")])
    else if OpenLen(s) > 0 then Dollar(s[..OpenLen(s) + CloseLen(s[OpenLen(s)..], s[..OpenLen(s)])])
    else if s[0] == '?' then Mark
    else Bare(s[0])
  }

  function Text(p: Piece): string {
    match p
    case Mark => "?"
    case Bare(c) => [c]
    case _ => p.text
  }

  lemma HeadIsPrefix(s: string)
    requires s != ""
    ensures 0 < |Text(Head(s))| <= |s| && s[..|Text(Head(s))|] == Text(Head(s))
  {
    if StartsWith(s, "--") {
      assert s[0] == s[..2][0];
    }
  }

  // -------------------------------------------------------------- what a region is

  /** A text between quotes `q` as it is written: every `q` in it twice. */
  function Doubled(x: string, q: char): string {
    if x == "" then "" else (if x[0] == q then [q, q] else [x[0]]) + Doubled(x[1..], q)
  }

  lemma {:induction false} QuoteReads(x: string, q: char, rest: string)
    requires rest == "" || rest[0] != q
    ensures QuoteLen(Doubled(x, q) + ([q] + rest), q) == |Doubled(x, q)| + 1
    ensures QuoteLen(Doubled(x, q), q) == |Doubled(x, q)|
  {
    var s := Doubled(x, q) + ([q] + rest);
    if x == "" {
      assert s == [q] + rest && s[1..] == rest;
    } else {
      QuoteReads(x[1..], q, rest);
      var n := if x[0] == q then 2 else 1;
      assert s[n..] == Doubled(x[1..], q) + ([q] + rest) && Doubled(x, q)[n..] == Doubled(x[1..], q);
    }
  }

  lemma QuotedHead(q: char, d: string, more: string)
    requires (q == '\'' || q == '"') && QuoteLen(d + more, q) == |d|
    ensures Head([q] + d + more) == if q == '"' then Ident([q] + d) else Quote([q] + d)
  {
    var s := [q] + d + more;
    assert s[1..] == d + more;
    assert s[..1 + |d|] == [q] + d;
  }

  /** A quoted text or name is one region through its closing quote, or to the end without one. */
  lemma QuotedRegion(x: string, q: char, rest: string)
    requires (q == '\'' || q == '"') && (rest == "" || rest[0] != q)
    ensures var closed := Doubled(x, q) + [q];
            Head([q] + closed + rest) == if q == '"' then Ident([q] + closed) else Quote([q] + closed)
    ensures var open := Doubled(x, q);
            Head([q] + open) == if q == '"' then Ident([q] + open) else Quote([q] + open)
  {
    QuoteReads(x, q, rest);
    var open := Doubled(x, q);
    var closed := open + [q];
    assert closed + rest == open + ([q] + rest) && open + "" == open;
    QuotedHead(q, closed, rest);
    QuotedHead(q, open, "");
    assert [q] + open + "" == [q] + open;
  }

  lemma {:induction false} LineReads(x: string, rest: string)
    requires '\n' !in x && (rest == "" || rest[0] == '\n')
    ensures LineLen(x + rest) == |x|
  {
    if x == "" {
      assert x + rest == rest;
    } else {
      assert x[0] in x && (x + rest)[1..] == x[1..] + rest;
      LineReads(x[1..], rest);
    }
  }

  /** A line comment is one region up to its newline. */
  lemma LineRegion(x: string, rest: string)
    requires '\n' !in x && (rest == "" || rest[0] == '\n')
    ensures Head("--" + x + rest) == Line("--" + x)
  {
    LineReads("--" + x, rest);
    assert ("--" + x + rest)[..2] == "--";
    assert ("--" + x + rest)[..2 + |x|] == "--" + x;
  }

  /** `close` does not occur in `x`, nor across its end. */
  predicate NotBefore(x: string, close: string) {
    forall i :: 0 <= i < |x| ==> !StartsWith((x + close)[i..], close)
  }

  lemma {:induction false} CloseReads(x: string, close: string, rest: string)
    requires close != "" && NotBefore(x, close)
    ensures CloseLen(x + (close + rest), close) == |x| + |close|
  {
    var s := x + (close + rest);
    if x == "" {
      assert s[..|close|] == close;
    } else {
      assert !StartsWith((x + close)[0..], close);
      assert s[..|close|] == (x + close)[0..][..|close|];
      forall i | 0 <= i < |x[1..]|
        ensures !StartsWith((x[1..] + close)[i..], close)
      {
        assert (x[1..] + close)[i..] == (x + close)[i + 1..];
      }
      assert s[1..] == x[1..] + (close + rest);
      CloseReads(x[1..], close, rest);
    }
  }

  /** A block comment is one region through its first closing mark. */
  lemma BlockRegion(x: string, rest: string)
    requires NotBefore(x, "*/")
    ensures Head("/*" + (x + ("*/" + rest))) == Block("/*" + x + "*/")
  {
    var s := "/*" + (x + ("*/" + rest));
    CloseReads(x, "*/", rest);
    assert s[2..] == x + ("*/" + rest) && s[..2] == "/*";
    assert !StartsWith(s, "--") by {
      assert s[..2][0] == '/';
    }
    assert s[..2 + |x| + 2] == "/*" + x + "*/";
  }

  lemma {:induction false} WordReads(tag: string, rest: string)
    requires (forall i :: 0 <= i < |tag| ==> IsWord(tag[i])) && rest != "" && !IsWord(rest[0])
    ensures WordRun(tag + rest) == |tag|
  {
    if tag == "" {
      assert tag + rest == rest;
    } else {
      assert (tag + rest)[1..] == tag[1..] + rest;
      WordReads(tag[1..], rest);
    }
  }

  /** A dollar quote, its tag empty or an identifier, is one region through the next `$tag$`. */
  lemma DollarRegion(tag: string, x: string, rest: string)
    requires forall i :: 0 <= i < |tag| ==>
               'A' <= tag[i] <= 'Z' || 'a' <= tag[i] <= 'z' || tag[i] == '_' || (i > 0 && '0' <= tag[i] <= '9')
    requires NotBefore(x, "$" + tag + "$")
    ensures var open := "$" + tag + "$";
            Head(open + (x + (open + rest))) == Dollar(open + x + open)
  {
    var open := "$" + tag + "$";
    var s := open + (x + (open + rest));
    var more := "$" + (x + (open + rest));
    assert s[1..] == tag + more;
    WordReads(tag, more);
    assert s[0] == '$' && s[1 + |tag|] == '$';
    assert tag != "" ==> s[1] == tag[0];
    assert OpenLen(s) == |open| && s[..|open|] == open && s[|open|..] == x + (open + rest);
    CloseReads(x, open, rest);
    assert !StartsWith(s, "--") && !StartsWith(s, "/*") by {
      assert |s| >= 2 && s[..2][0] == '$';
    }
    assert s[..|open| + |x| + |open|] == open + x + open;
  }

  /** Everything else is one character, a `?` a placeholder. */
  lemma OtherRegion(s: string)
    requires s != "" && s[0] != '\'' && s[0] != '"' && s[0] != '-' && s[0] != '/' && s[0] != '$'
    ensures Head(s) == if s[0] == '?' then Mark else Bare(s[0])
  {
    assert |s| >= 2 ==> s[..2][0] == s[0];
  }

  // ------------------------------------------------------------------ all the pieces

  function Tokenize(s: string): seq<Piece>
    decreases |s|
  {
    if s == "" then []
    else
      HeadIsPrefix(s);
      [Head(s)] + Tokenize(s[|Text(Head(s))|..])
  }

  function Concat(ps: seq<Piece>): string {
    if ps == [] then "" else Text(ps[0]) + Concat(ps[1..])
  }

  /** Nothing is lost: the pieces of a text are the text. */
  lemma {:induction false} Lossless(s: string)
    ensures Concat(Tokenize(s)) == s
    decreases |s|
  {
    if s != "" {
      HeadIsPrefix(s);
      Lossless(s[|Text(Head(s))|..]);
    }
  }

  // -------------------------------------------------------------------- rewriting

  /** A piece as printed when the next placeholder is number `k`. */
  function Printed(p: Piece, k: nat): string {
    if p.Mark? then "$" + Dec(k) else Text(p)
  }

  function After(p: Piece, k: nat): nat {
    if p.Mark? then k + 1 else k
  }

  function Render(ps: seq<Piece>, k: nat): string {
    if ps == [] then "" else Printed(ps[0], k) + Render(ps[1..], After(ps[0], k))
  }

  function Marks(ps: seq<Piece>): nat {
    if ps == [] then 0 else (if ps[0].Mark? then 1 else 0) + Marks(ps[1..])
  }

  /** Placeholders are numbered from `k` without a gap: each part goes on where the one before it stopped. */
  lemma {:induction false} RenderSplit(a: seq<Piece>, b: seq<Piece>, k: nat)
    ensures Render(a + b, k) == Render(a, k) + Render(b, k + Marks(a))
  {
    if a == [] {
      assert a + b == b;
    } else {
      assert (a + b)[1..] == a[1..] + b;
      RenderSplit(a[1..], b, After(a[0], k));
      Associative(Printed(a[0], k), Render(a[1..], After(a[0], k)), Render(b, k + Marks(a)));
    }
  }

  /** The placeholders before piece `i`. */
  function MarksBefore(ps: seq<Piece>, i: nat): set<nat>
    requires i <= |ps|
  {
    set j: nat | j < i && ps[j].Mark?
  }

  function Joined(parts: seq<string>): string {
    if parts == [] then "" else parts[0] + Joined(parts[1..])
  }

  /** Piece by piece: a placeholder as `$` and how many there are up to it, anything else as it stands. */
  ghost predicate NumberedParts(ps: seq<Piece>, parts: seq<string>) {
    && |parts| == |ps|
    && forall i :: 0 <= i < |ps| ==>
         if ps[i].Mark? then parts[i] != "" && parts[i][0] == '$' && Numeral(parts[i][1..], |MarksBefore(ps, i)| + 1)
         else parts[i] == Text(ps[i])
  }

  lemma {:induction false} MarksAreCounted(ps: seq<Piece>, i: nat)
    requires i <= |ps|
    ensures |MarksBefore(ps, i)| == Marks(ps[..i])
  {
    if i > 0 {
      MarksAreCounted(ps, i - 1);
      MarksSplit(ps[..i - 1], [ps[i - 1]]);
      assert ps[..i] == ps[..i - 1] + [ps[i - 1]];
      var before: nat := i - 1;
      assert MarksBefore(ps, i) == MarksBefore(ps, i - 1) + if ps[i - 1].Mark? then {before} else {};
    }
  }

  lemma {:induction false} MarksSplit(a: seq<Piece>, b: seq<Piece>)
    ensures Marks(a + b) == Marks(a) + Marks(b)
  {
    if a == [] {
      assert a + b == b;
    } else {
      assert (a + b)[1..] == a[1..] + b;
      MarksSplit(a[1..], b);
    }
  }

  /** The pieces as printed, the next placeholder being number `k`. */
  function Parts(ps: seq<Piece>, k: nat): (parts: seq<string>)
    ensures |parts| == |ps|
  {
    seq(|ps|, i requires 0 <= i < |ps| => Printed(ps[i], k + Marks(ps[..i])))
  }

  lemma {:induction false} PartsJoin(ps: seq<Piece>, k: nat)
    ensures Joined(Parts(ps, k)) == Render(ps, k)
  {
    if ps != [] {
      assert ps[..0] == [];
      forall i | 0 <= i < |ps| - 1
        ensures Parts(ps, k)[1..][i] == Parts(ps[1..], After(ps[0], k))[i]
      {
        assert ps[..i + 1][0] == ps[0] && ps[..i + 1][1..] == ps[1..][..i];
      }
      assert Parts(ps, k)[1..] == Parts(ps[1..], After(ps[0], k));
      PartsJoin(ps[1..], After(ps[0], k));
    }
  }

  /**
   * Every placeholder is printed as `$` and its number in decimal, counted from 1 in the order of the
   * text, and every other piece as it is.
   */
  lemma RenderNumbers(ps: seq<Piece>)
    ensures Joined(Parts(ps, 1)) == Render(ps, 1) && NumberedParts(ps, Parts(ps, 1))
  {
    PartsJoin(ps, 1);
    forall i | 0 <= i < |ps| && ps[i].Mark?
      ensures Parts(ps, 1)[i][0] == '$' && Numeral(Parts(ps, 1)[i][1..], |MarksBefore(ps, i)| + 1)
    {
      MarksAreCounted(ps, i);
      DecIsNumeral(1 + Marks(ps[..i]));
      assert Parts(ps, 1)[i] == "$" + Dec(1 + Marks(ps[..i]));
      assert Parts(ps, 1)[i][1..] == Dec(1 + Marks(ps[..i]));
    }
  }

  /** The numbering leaves no choice: two numbered prints of the same pieces are the same. */
  lemma NumberedOnce(ps: seq<Piece>, a: seq<string>, b: seq<string>)
    requires NumberedParts(ps, a) && NumberedParts(ps, b)
    ensures a == b
  {
    forall i | 0 <= i < |ps|
      ensures a[i] == b[i]
    {
      if ps[i].Mark? {
        OneNumeral(a[i][1..], b[i][1..], |MarksBefore(ps, i)| + 1);
        assert a[i] == ['$'] + a[i][1..] && b[i] == ['$'] + b[i][1..];
      }
    }
  }

  /** The bare `?` with `j` others before it is printed as `$` and the numeral of `j + 1`, any other piece as it is. */
  lemma KthPlaceholder(before: seq<Piece>, p: Piece, rest: seq<Piece>) returns (printed: string)
    ensures Render(before + [p] + rest, 1) ==
            Render(before, 1) + printed + Render(rest, 1 + Marks(before) + if p.Mark? then 1 else 0)
    ensures if p.Mark? then printed != "" && printed[0] == '$' && Numeral(printed[1..], 1 + Marks(before))
            else printed == Text(p)
  {
    var k := 1 + Marks(before);
    assert before + [p] + rest == before + ([p] + rest);
    RenderSplit(before, [p] + rest, 1);
    assert ([p] + rest)[1..] == rest;
    printed := Printed(p, k);
    var x, z := Render(before, 1), Render(rest, After(p, k));
    assert x + (printed + z) == (x + printed) + z;
    DecIsNumeral(k);
    assert p.Mark? ==> printed[1..] == Dec(k);
  }

  // ------------------------------------------------------------------ the scanner

  /** JavaScript's `indexOf`. */
  function IndexOf(s: string, p: string, from: nat): (at: int)
    requires from <= |s|
    ensures at == -1 || from <= at <= |s| - |p|
    decreases |s| - from
  {
    if StartsWith(s[from..], p) then from
    else if from == |s| then -1
    else IndexOf(s, p, from + 1)
  }

  lemma {:induction false} IndexOfClose(s: string, p: string, from: nat)
    requires from <= |s| && p != ""
    ensures var at := IndexOf(s, p, from);
            from + CloseLen(s[from..], p) == if at == -1 then |s| else at + |p|
    decreases |s| - from
  {
    if from < |s| && !StartsWith(s[from..], p) {
      IndexOfClose(s, p, from + 1);
      assert s[from..][1..] == s[from + 1..];
    }
  }

  lemma {:induction false} IndexOfLine(s: string, from: nat)
    requires from <= |s|
    ensures var at := IndexOf(s, "\n", from);
            from + LineLen(s[from..]) == if at == -1 then |s| else at
    decreases |s| - from
  {
    if from < |s| {
      assert StartsWith(s[from..], "\n") <==> s[from] == '\n' by {
        if s[from] == '\n' {
          assert s[from..][..1] == "\n";
        } else {
          assert s[from..][..1][0] != "\n"[0];
        }
      }
      if s[from] != '\n' {
        IndexOfLine(s, from + 1);
        assert s[from..][1..] == s[from + 1..];
      }
    }
  }

  lemma TokenizeAt(s: string, i: nat, n: nat)
    requires i < |s| && n == |Text(Head(s[i..]))|
    ensures i + n <= |s| && s[i..i + n] == Text(Head(s[i..]))
    ensures Tokenize(s[i..]) == [Head(s[i..])] + Tokenize(s[i + n..])
  {
    HeadIsPrefix(s[i..]);
    assert s[i..][n..] == s[i + n..];
    assert s[i..][..n] == s[i..i + n];
  }

  ghost function PieceEnd(s: string, i: nat): nat
    requires i < |s|
  {
    i + |Text(Head(s[i..]))|
  }

  /** What is still to be printed at position `i` after `n` placeholders. */
  ghost function Rest(s: string, i: nat, n: nat): string
    requires i <= |s|
  {
    Render(Tokenize(s[i..]), n + 1)
  }

  /** One piece copied: it and the rest rendered are what was to be printed. */
  lemma Copied(s: string, i: nat, n: nat, end: nat)
    requires i < |s| && !Head(s[i..]).Mark? && end == PieceEnd(s, i)
    ensures i < end <= |s| && s[i..end] + Rest(s, end, n) == Rest(s, i, n)
  {
    var p := Head(s[i..]);
    assert i < end <= |s| && s[i..end] == Text(p) by {
      HeadIsPrefix(s[i..]);
    }
    TokenizeAt(s, i, |Text(p)|);
    var tail := Tokenize(s[end..]);
    assert ([p] + tail)[1..] == tail;
  }

  /** One placeholder numbered. */
  lemma Numbered(s: string, i: nat, n: nat)
    requires i < |s| && Head(s[i..]).Mark?
    ensures ("$" + Dec(n + 1)) + Rest(s, i + 1, n + 1) == Rest(s, i, n)
  {
    TokenizeAt(s, i, 1);
    var tail := Tokenize(s[i + 1..]);
    assert ([Mark] + tail)[1..] == tail;
  }

  lemma QuoteStep(s: string, i: nat, q: char)
    requires i < |s|
    ensures i + QuoteLen(s[i..], q) ==
            if s[i] != q then i + 1 + QuoteLen(s[i + 1..], q)
            else if i + 1 < |s| && s[i + 1] == q then i + 2 + QuoteLen(s[i + 2..], q)
            else i + 1
  {
    assert s[i..][1..] == s[i + 1..];
    if i + 1 < |s| {
      assert s[i..][2..] == s[i + 2..];
    }
  }

  /** The loop over a quoted region, from its opening quote at `start`. */
  method CopyQuoted(sql: string, start: nat) returns (text: string, i: nat)
    requires start < |sql|
    ensures i == start + 1 + QuoteLen(sql[start + 1..], sql[start])
    ensures i <= |sql| && text == sql[start..i]
  {
    var q := sql[start];
    text, i := [q], start + 1;
    ghost var end := start + 1 + QuoteLen(sql[start + 1..], q);
    while i < |sql|
      invariant start < i <= |sql| && text == sql[start..i]
      invariant i + QuoteLen(sql[i..], q) == end
      decreases |sql| - i
    {
      QuoteStep(sql, i, q);
      Extended(sql, start, i);
      text := text + [sql[i]];
      if sql[i] == q {
        if i + 1 < |sql| && sql[i + 1] == q {
          Extended(sql, start, i + 1);
          text := text + [q];
          i := i + 2;
          continue;
        }
        i := i + 1;
        return;
      }
      i := i + 1;
    }
    Nothing(sql, q);
  }

  lemma Extended(s: string, a: nat, i: nat)
    requires a <= i < |s|
    ensures s[a..i] + [s[i]] == s[a..i + 1]
  {
  }

  lemma Nothing(s: string, q: char)
    ensures QuoteLen(s[|s|..], q) == 0
  {
  }

  /** One turn of the scanner at position `i`, after `n` placeholders: what it prints and where it goes on. */
  method ScanPiece(sql: string, i: nat, n: nat) returns (text: string, end: nat, m: nat)
    requires i < |sql|
    ensures i < end <= |sql| && text + Rest(sql, end, m) == Rest(sql, i, n)
  {
    var c := sql[i];
    var next := if i + 1 < |sql| then sql[i + 1] else ' ';
    m := n;
    if c == '\'' || c == '"' {
      text, end := CopyQuoted(sql, i);
      QuoteAt(sql, i, n, end);
      return;
    }
    if c == '-' && next == '-' {
      var at := IndexOf(sql, "\n", i);
      end := if at == -1 then |sql| else at;
      LineAt(sql, i, n, end);
      text := sql[i..end];
      return;
    }
    if c == '/' && next == '*' {
      var at := IndexOf(sql, "*/", i + 2);
      end := if at == -1 then |sql| else at + 2;
      BlockAt(sql, i, n, end);
      text := sql[i..end];
      return;
    }
    var opening := OpenLen(sql[i..]);
    if opening > 0 {
      var open := sql[i..i + opening];
      var close := IndexOf(sql, open, i + opening);
      end := if close == -1 then |sql| else close + |open|;
      DollarAt(sql, i, n, opening, end);
      text := sql[i..end];
      return;
    }
    PlainAt(sql, i, n);
    end := i + 1;
    if c == '?' {
      m := n + 1;
      text := "$" + Dec(m);
    } else {
      text := [c];
    }
  }

  /** The scanner prints the pieces of the text, its placeholders numbered. */
  method ToPositional(sql: string) returns (out: string, ghost parts: seq<string>)
    ensures out == Render(Tokenize(sql), 1)
    ensures NumberedParts(Tokenize(sql), parts) && out == Joined(parts)
  {
    out := "";
    var n: nat, i: nat := 0, 0;
    while i < |sql|
      invariant i <= |sql| && out + Rest(sql, i, n) == Rest(sql, 0, 0)
      decreases |sql| - i
    {
      var text, end, m := ScanPiece(sql, i, n);
      Associative(out, text, Rest(sql, end, m));
      out, i, n := out + text, end, m;
    }
    RestEnds(sql, n);
    parts := Parts(Tokenize(sql), 1);
    RenderNumbers(Tokenize(sql));
  }

  lemma Associative(a: string, b: string, c: string)
    ensures (a + b) + c == a + (b + c)
  {
  }

  lemma RestEnds(s: string, n: nat)
    ensures Rest(s, |s|, n) == "" && Rest(s, 0, 0) == Render(Tokenize(s), 1)
  {
    assert s[0..] == s && s[|s|..] == "";
  }

  // The piece that starts at `i`, by the characters the scanner looks at.

  lemma QuoteAt(s: string, i: nat, n: nat, end: nat)
    requires i < |s| && (s[i] == '\'' || s[i] == '"') && end == i + 1 + QuoteLen(s[i + 1..], s[i])
    ensures i < end <= |s| && s[i..end] + Rest(s, end, n) == Rest(s, i, n)
  {
    assert s[i..][1..] == s[i + 1..];
    Copied(s, i, n, end);
  }

  lemma LineAt(s: string, i: nat, n: nat, end: nat)
    requires i + 1 < |s| && s[i] == '-' && s[i + 1] == '-'
    requires end == var at := IndexOf(s, "\n", i); if at == -1 then |s| else at
    ensures i < end <= |s| && s[i..end] + Rest(s, end, n) == Rest(s, i, n)
  {
    TwoChars(s[i..], "--");
    IndexOfLine(s, i);
    Copied(s, i, n, end);
  }

  lemma BlockAt(s: string, i: nat, n: nat, end: nat)
    requires i + 1 < |s| && s[i] == '/' && s[i + 1] == '*'
    requires end == var at := IndexOf(s, "*/", i + 2); if at == -1 then |s| else at + 2
    ensures i < end <= |s| && s[i..end] + Rest(s, end, n) == Rest(s, i, n)
  {
    TwoChars(s[i..], "--");
    TwoChars(s[i..], "/*");
    IndexOfClose(s, "*/", i + 2);
    CutAt(s, i, 2);
    Copied(s, i, n, end);
  }

  lemma DollarHead(t: string)
    requires OpenLen(t) > 0
    ensures Head(t) == Dollar(t[..OpenLen(t) + CloseLen(t[OpenLen(t)..], t[..OpenLen(t)])])
  {
    TwoChars(t, "--");
    TwoChars(t, "/*");
  }

  lemma CutAt(s: string, i: nat, m: nat)
    requires i + m <= |s|
    ensures s[i..][m..] == s[i + m..] && s[i..][..m] == s[i..i + m]
  {
  }

  lemma DollarLength(t: string, m: nat)
    requires t != "" && m == OpenLen(t) > 0
    ensures !Head(t).Mark? && |Text(Head(t))| == m + CloseLen(t[m..], t[..m])
  {
    DollarHead(t);
  }

  lemma DollarEnd(s: string, i: nat, m: nat, end: nat)
    requires i < |s| && m == OpenLen(s[i..]) > 0
    requires end == var at := IndexOf(s, s[i..i + m], i + m); if at == -1 then |s| else at + m
    ensures !Head(s[i..]).Mark? && end == PieceEnd(s, i)
  {
    DollarLength(s[i..], m);
    CutAt(s, i, m);
    IndexOfClose(s, s[i..i + m], i + m);
  }

  lemma DollarAt(s: string, i: nat, n: nat, m: nat, end: nat)
    requires i < |s| && m == OpenLen(s[i..]) > 0
    requires end == var at := IndexOf(s, s[i..i + m], i + m); if at == -1 then |s| else at + m
    ensures i < end <= |s| && s[i..end] + Rest(s, end, n) == Rest(s, i, n)
  {
    DollarEnd(s, i, m, end);
    Copied(s, i, n, end);
  }

  lemma PlainAt(s: string, i: nat, n: nat)
    requires i < |s| && s[i] != '\'' && s[i] != '"' && OpenLen(s[i..]) == 0
    requires i + 1 < |s| ==> !(s[i] == '-' && s[i + 1] == '-') && !(s[i] == '/' && s[i + 1] == '*')
    ensures if s[i] == '?' then ("$" + Dec(n + 1)) + Rest(s, i + 1, n + 1) == Rest(s, i, n)
            else [s[i]] + Rest(s, i + 1, n) == Rest(s, i, n)
  {
    PlainHead(s[i..]);
    if s[i] == '?' {
      Numbered(s, i, n);
    } else {
      Copied(s, i, n, i + 1);
      assert s[i..i + 1] == [s[i]];
    }
  }

  lemma PlainHead(t: string)
    requires t != "" && t[0] != '\'' && t[0] != '"' && OpenLen(t) == 0
    requires |t| > 1 ==> !(t[0] == '-' && t[1] == '-') && !(t[0] == '/' && t[1] == '*')
    ensures Head(t) == if t[0] == '?' then Mark else Bare(t[0])
  {
    TwoChars(t, "--");
    TwoChars(t, "/*");
  }

  lemma TwoChars(t: string, p: string)
    requires |p| == 2
    ensures StartsWith(t, p) <==> |t| >= 2 && t[0] == p[0] && t[1] == p[1]
  {
    if |t| >= 2 {
      assert t[..2][0] == t[0] && t[..2][1] == t[1];
      if t[0] == p[0] && t[1] == p[1] {
        assert t[..2] == p;
      }
    }
  }

  // -------------------------------------------------------- re-lexing the output

  /** A placeholder's digits are bare characters. */
  function Bares(s: string): seq<Piece> {
    if s == "" then [] else [Bare(s[0])] + Bares(s[1..])
  }

  /** The pieces, with each placeholder as the characters that replace it. */
  function Expand(ps: seq<Piece>, k: nat): seq<Piece> {
    if ps == [] then []
    else (if ps[0].Mark? then [Bare('$')] + Bares(Dec(k)) else [ps[0]]) + Expand(ps[1..], After(ps[0], k))
  }

  /** Bare word characters and then a placeholder. */
  predicate RunThenMark(ps: seq<Piece>) {
    ps != [] && (ps[0].Mark? || (ps[0].Bare? && IsWord(ps[0].c) && RunThenMark(ps[1..])))
  }

  /** A bare `$`, a tag or none, and a placeholder: printed, they would open a dollar quote. */
  predicate OpensQuote(ps: seq<Piece>) {
    |ps| > 1 && ps[0] == Bare('$') && !(ps[1].Bare? && IsDigit(ps[1].c)) && RunThenMark(ps[1..])
  }

  predicate Hazard(ps: seq<Piece>) {
    ps != [] && (OpensQuote(ps) || Hazard(ps[1..]))
  }

  /** What follows a piece keeps its first character, a placeholder's `?` turned into `$`. */
  ghost predicate Follows(rest: string, printed: string) {
    && (rest == "" <==> printed == "")
    && (rest != "" ==> printed[0] == if rest[0] == '?' then '$' else rest[0])
  }

  lemma {:induction false} QuoteStays(t: string, rest: string, printed: string, q: char)
    requires QuoteLen(t + rest, q) == |t| && Follows(rest, printed) && q != '$'
    ensures QuoteLen(t + printed, q) == |t|
  {
    assert "" + rest == rest;
    if rest == "" || t == "" {
    } else if t[0] != q {
      assert (t + rest)[1..] == t[1..] + rest && (t + printed)[1..] == t[1..] + printed;
      QuoteStays(t[1..], rest, printed, q);
    } else if |t| > 1 {
      assert (t + rest)[2..] == t[2..] + rest && (t + printed)[2..] == t[2..] + printed;
      QuoteStays(t[2..], rest, printed, q);
    }
  }

  lemma {:induction false} LineStays(t: string, rest: string, printed: string)
    requires LineLen(t + rest) == |t| && Follows(rest, printed)
    ensures LineLen(t + printed) == |t|
  {
    if t == "" {
      assert t + rest == rest && t + printed == printed;
    } else {
      assert (t + rest)[1..] == t[1..] + rest && (t + printed)[1..] == t[1..] + printed;
      LineStays(t[1..], rest, printed);
    }
  }

  lemma {:induction false} ClosedIsLong(s: string, close: string)
    requires close != ""
    ensures CloseLen(s, close) < |s| ==> CloseLen(s, close) >= |close|
  {
    if s != "" && !StartsWith(s, close) {
      ClosedIsLong(s[1..], close);
    }
  }

  lemma {:induction false} CloseStays(t: string, rest: string, printed: string, close: string)
    requires close != "" && CloseLen(t + rest, close) == |t| && (rest == "" <==> printed == "")
    ensures CloseLen(t + printed, close) == |t|
  {
    if rest == "" {
    } else {
      ClosedIsLong(t + rest, close);
      assert (t + rest)[..|close|] == t[..|close|] == (t + printed)[..|close|];
      if !StartsWith(t + rest, close) {
        assert (t + rest)[1..] == t[1..] + rest && (t + printed)[1..] == t[1..] + printed;
        CloseStays(t[1..], rest, printed, close);
      }
    }
  }

  lemma {:induction false} WordRunStays(t: string, rest: string, printed: string)
    requires WordRun(t + rest) < |t|
    ensures WordRun(t + printed) == WordRun(t + rest)
  {
    if IsWord(t[0]) {
      assert (t + rest)[1..] == t[1..] + rest && (t + printed)[1..] == t[1..] + printed;
      WordRunStays(t[1..], rest, printed);
    }
  }

  lemma OpenStays(t: string, rest: string, printed: string)
    requires 0 < OpenLen(t + rest) <= |t|
    ensures OpenLen(t + printed) == OpenLen(t + rest)
  {
    assert (t + rest)[1..] == t[1..] + rest && (t + printed)[1..] == t[1..] + printed;
    WordRunStays(t[1..], rest, printed);
  }

  // A region's piece is read again in front of what is printed after it.

  lemma QuoteAgain(t: string, rest: string, printed: string)
    requires t + rest != "" && t != "" && Follows(rest, printed)
    requires (t + rest)[0] == '\'' || (t + rest)[0] == '"'
    requires Text(Head(t + rest)) == t
    ensures Head(t + printed) == Head(t + rest)
  {
    assert (t + rest)[1..] == t[1..] + rest && (t + printed)[1..] == t[1..] + printed;
    QuoteStays(t[1..], rest, printed, t[0]);
    assert (t + printed)[..|t|] == t;
  }

  lemma LineAgain(t: string, rest: string, printed: string)
    requires t + rest != "" && StartsWith(t + rest, "--")
    requires Head(t + rest) == Line(t) && Follows(rest, printed)
    ensures t + printed != "" && Head(t + printed) == Line(t)
  {
    TwoChars(t + rest, "--");
    assert (t + rest)[1..][1..] == (t + rest)[2..];
    assert LineLen(t + rest) >= 2;
    LineStays(t, rest, printed);
    TwoChars(t + printed, "--");
    assert (t + printed)[..|t|] == t;
  }

  lemma BlockAgain(t: string, rest: string, printed: string)
    requires t + rest != "" && Head(t + rest) == Block(t) && Follows(rest, printed)
    ensures t + printed != "" && Head(t + printed) == Block(t)
  {
    TwoChars(t + rest, "/*");
    assert |t| >= 2;
    assert (t + rest)[2..] == t[2..] + rest && (t + printed)[2..] == t[2..] + printed;
    CloseStays(t[2..], rest, printed, "*/");
    TwoChars(t + printed, "/*");
    TwoChars(t + printed, "--");
    assert (t + printed)[..|t|] == t;
  }

  lemma DollarAgain(t: string, rest: string, printed: string)
    requires OpenLen(t + rest) > 0 && Text(Head(t + rest)) == t && Follows(rest, printed)
    ensures t + printed != "" && Head(t + printed) == Dollar(t)
  {
    var m := OpenLen(t + rest);
    DollarHead(t + rest);
    OpenStays(t, rest, printed);
    DollarCloses(t, rest, printed, m);
    DollarHead(t + printed);
    assert (t + printed)[..|t|] == t;
  }

  lemma DollarCloses(t: string, rest: string, printed: string, m: nat)
    requires 0 < m <= |t| && m + CloseLen((t + rest)[m..], (t + rest)[..m]) == |t| && (rest == "" <==> printed == "")
    ensures m + CloseLen((t + printed)[m..], (t + printed)[..m]) == |t|
  {
    assert (t + rest)[m..] == t[m..] + rest && (t + printed)[m..] == t[m..] + printed;
    assert (t + rest)[..m] == t[..m] == (t + printed)[..m];
    CloseStays(t[m..], rest, printed, t[..m]);
  }

  lemma BareAgain(c: char, rest: string, printed: string)
    requires Head([c] + rest) == Bare(c) && Follows(rest, printed)
    requires c == '$' ==> OpenLen([c] + printed) == 0
    ensures Head([c] + printed) == Bare(c)
  {
    TwoChars([c] + rest, "--");
    TwoChars([c] + rest, "/*");
    TwoChars([c] + printed, "--");
    TwoChars([c] + printed, "/*");
  }

  lemma HeadAgain(p: Piece, rest: string, printed: string)
    requires Text(p) != "" && Head(Text(p) + rest) == p && !p.Mark? && Follows(rest, printed)
    requires p == Bare('$') ==> OpenLen("$" + printed) == 0
    ensures Head(Text(p) + printed) == p
  {
    var t := Text(p);
    if t[0] == '\'' || t[0] == '"' {
      QuoteAgain(t, rest, printed);
    } else if StartsWith(t + rest, "--") {
      LineAgain(t, rest, printed);
    } else if StartsWith(t + rest, "/*") {
      BlockAgain(t, rest, printed);
    } else if OpenLen(t + rest) > 0 {
      DollarHead(t + rest);
      DollarAgain(t, rest, printed);
    } else {
      BareAgain(t[0], rest, printed);
    }
  }

  // What the tokens after a `$` print.

  lemma WordHead(s: string)
    requires s != ""
    ensures IsWord(s[0]) ==> Head(s) == Bare(s[0])
    ensures s[0] == '?' <==> Head(s) == Mark
    ensures Head(s).Bare? ==> Head(s).c == s[0]
  {
    TwoChars(s, "--");
    TwoChars(s, "/*");
  }

  lemma PrintedFollows(s: string, k: nat)
    ensures Follows(s, Render(Tokenize(s), k))
  {
    if s != "" {
      HeadIsPrefix(s);
      WordHead(s);
      var h := Head(s);
      assert Text(h)[0] == s[0];
      assert Render(Tokenize(s), k)[0] == Printed(h, k)[0];
    }
  }

  lemma WordPrinted(s: string, k: nat)
    requires s != "" && IsWord(s[0])
    ensures Tokenize(s) == [Bare(s[0])] + Tokenize(s[1..])
    ensures Render(Tokenize(s), k) != "" && Render(Tokenize(s), k)[0] == s[0]
    ensures Render(Tokenize(s), k)[1..] == Render(Tokenize(s[1..]), k)
    ensures RunThenMark(Tokenize(s)) <==> RunThenMark(Tokenize(s[1..]))
  {
    WordHead(s);
    var tail := Tokenize(s[1..]);
    assert ([Bare(s[0])] + tail)[1..] == tail;
  }

  /** The run of word characters and the character after it are printed as they are, a placeholder as `$`. */
  ghost predicate RunKept(s: string, k: nat) {
    var ps, printed, r := Tokenize(s), Render(Tokenize(s), k), WordRun(s);
    && WordRun(printed) == r
    && (r < |s| <==> r < |printed|)
    && (r < |s| ==> printed[r] == if s[r] == '?' then '$' else s[r])
    && (RunThenMark(ps) <==> r < |s| && s[r] == '?')
  }

  lemma NoRunKept(s: string, k: nat)
    requires s == "" || !IsWord(s[0])
    ensures RunKept(s, k)
  {
    if s != "" {
      WordHead(s);
      PrintedFollows(s, k);
      var tail := Tokenize(s[|Text(Head(s))|..]);
      assert ([Head(s)] + tail)[0] == Head(s);
    }
  }

  lemma {:induction false} RunPrinted(s: string, k: nat)
    ensures RunKept(s, k)
  {
    if s == "" || !IsWord(s[0]) {
      NoRunKept(s, k);
    } else {
      RunPrinted(s[1..], k);
      WordPrinted(s, k);
      var printed, r := Render(Tokenize(s), k), WordRun(s[1..]);
      assert r < |s[1..]| ==> printed[r + 1] == printed[1..][r] && s[r + 1] == s[1..][r];
    }
  }

  /** A bare `$` opens a dollar quote in the output exactly when a tag or none and then a placeholder follow it. */
  lemma DollarPrinted(rest: string, k: nat)
    requires OpenLen("$" + rest) == 0
    ensures OpenLen("$" + Render(Tokenize(rest), k)) > 0 <==> OpensQuote([Bare('$')] + Tokenize(rest))
  {
    var printed := Render(Tokenize(rest), k);
    assert ("$" + rest)[1..] == rest && ("$" + printed)[1..] == printed;
    RunPrinted(rest, k);
    PrintedFollows(rest, k);
    var ps := [Bare('$')] + Tokenize(rest);
    assert ps[1..] == Tokenize(rest);
    if rest != "" {
      WordHead(rest);
      assert ps[1] == Head(rest);
    }
  }

  lemma {:induction false} DigitsLex(ds: string, rest: string)
    requires forall i :: 0 <= i < |ds| ==> IsDigit(ds[i])
    ensures Tokenize(ds + rest) == Bares(ds) + Tokenize(rest)
  {
    if ds == "" {
      assert ds + rest == rest;
    } else {
      WordHead(ds + rest);
      assert (ds + rest)[1..] == ds[1..] + rest;
      DigitsLex(ds[1..], rest);
      assert [Bare(ds[0])] + (Bares(ds[1..]) + Tokenize(rest)) == Bares(ds) + Tokenize(rest);
    }
  }

  lemma DollarDigits(ds: string, rest: string)
    requires ds != "" && forall i :: 0 <= i < |ds| ==> IsDigit(ds[i])
    ensures Tokenize("$" + ds + rest) == ([Bare('$')] + Bares(ds)) + Tokenize(rest)
  {
    var s := "$" + ds + rest;
    assert s[1..] == ds + rest;
    assert OpenLen(s) == 0;
    TwoChars(s, "--");
    TwoChars(s, "/*");
    assert Head(s) == Bare('$');
    DigitsLex(ds, rest);
    assert [Bare('$')] + (Bares(ds) + Tokenize(rest)) == ([Bare('$')] + Bares(ds)) + Tokenize(rest);
  }

  /** A printed placeholder opens nothing: it reads as its own characters, whatever follows. */
  lemma MarkLex(k: nat, rest: string)
    ensures Tokenize("$" + Dec(k) + rest) == ([Bare('$')] + Bares(Dec(k))) + Tokenize(rest)
  {
    DecIsNumeral(k);
    DollarDigits(Dec(k), rest);
  }

  lemma SameTail<T>(a: seq<T>, x: seq<T>, y: seq<T>)
    ensures a + x == a + y <==> x == y
  {
    assert (a + x)[|a|..] == x && (a + y)[|a|..] == y;
  }

  lemma SplitFirst(p: Piece, tail: seq<Piece>, k: nat)
    ensures Render([p] + tail, k) == Printed(p, k) + Render(tail, After(p, k))
    ensures Expand([p] + tail, k) == (if p.Mark? then [Bare('$')] + Bares(Dec(k)) else [p]) + Expand(tail, After(p, k))
    ensures Hazard([p] + tail) <==> OpensQuote([p] + tail) || Hazard(tail)
  {
    assert ([p] + tail)[1..] == tail;
  }

  /** A piece that is not a placeholder reads again as itself, unless it is a `$` that now opens a quote. */
  lemma PieceRelexes(p: Piece, rest: string, k: nat)
    requires Text(p) != "" && Head(Text(p) + rest) == p && !p.Mark?
    ensures var printed := Render(Tokenize(rest), k);
            if OpensQuote([p] + Tokenize(rest)) then Tokenize(Text(p) + printed)[0] != p
            else Tokenize(Text(p) + printed) == [p] + Tokenize(printed)
  {
    var printed := Render(Tokenize(rest), k);
    PrintedFollows(rest, k);
    if p == Bare('$') {
      NoOpening(rest);
      DollarPrinted(rest, k);
    }
    if p == Bare('$') && OpensQuote([p] + Tokenize(rest)) {
      DollarHead("$" + printed);
    } else {
      HeadAgain(p, rest, printed);
      assert (Text(p) + printed)[|Text(p)|..] == printed;
    }
  }

  lemma NoOpening(rest: string)
    requires Head("$" + rest) == Bare('$')
    ensures OpenLen("$" + rest) == 0
  {
    if OpenLen("$" + rest) > 0 {
      DollarHead("$" + rest);
    }
  }

  /**
   * Re-lexing: the output reads as the same pieces, with each placeholder as its own characters,
   * exactly when no bare `$`, with a tag or none after it, stands right before a placeholder.
   */
  lemma {:induction false} RelexesExactly(s: string, k: nat)
    ensures Tokenize(Render(Tokenize(s), k)) == Expand(Tokenize(s), k) <==> !Hazard(Tokenize(s))
    decreases |s|
  {
    if s != "" {
      HeadIsPrefix(s);
      var p := Head(s);
      var rest := s[|Text(p)|..];
      var ps := Tokenize(rest);
      assert s == Text(p) + rest;
      SplitFirst(p, ps, k);
      RelexesExactly(rest, After(p, k));
      var printed := Render(ps, After(p, k));
      if p.Mark? {
        MarkLex(k, printed);
        SameTail([Bare('$')] + Bares(Dec(k)), Tokenize(printed), Expand(ps, k + 1));
      } else {
        PieceRelexes(p, rest, k);
        SameTail([p], Tokenize(printed), Expand(ps, k));
      }
    }
  }

  // ------------------------------------------------------------- applying it twice

  lemma {:induction false} BaresHaveNoMarks(s: string)
    ensures Marks(Bares(s)) == 0
  {
    if s != "" {
      BaresHaveNoMarks(s[1..]);
      assert Bares(s)[1..] == Bares(s[1..]);
    }
  }

  lemma {:induction false} ExpandHasNoMarks(ps: seq<Piece>, k: nat)
    ensures Marks(Expand(ps, k)) == 0
  {
    if ps != [] {
      ExpandHasNoMarks(ps[1..], After(ps[0], k));
      BaresHaveNoMarks(Dec(k));
      var head := if ps[0].Mark? then [Bare('$')] + Bares(Dec(k)) else [ps[0]];
      assert Marks(head) == 0 by {
        if ps[0].Mark? {
          assert head[1..] == Bares(Dec(k));
        }
      }
      MarksSplit(head, Expand(ps[1..], After(ps[0], k)));
    }
  }

  lemma {:induction false} NoMarksPrintsAsIs(ps: seq<Piece>, k: nat)
    requires Marks(ps) == 0
    ensures Render(ps, k) == Concat(ps)
  {
    if ps != [] {
      NoMarksPrintsAsIs(ps[1..], k);
    }
  }

  /** Without the hazard the output holds no placeholder, and a second application changes nothing. */
  lemma SecondApplicationChangesNothing(s: string)
    requires !Hazard(Tokenize(s))
    ensures var out := Render(Tokenize(s), 1);
            Marks(Tokenize(out)) == 0 && Render(Tokenize(out), 1) == out
  {
    var out := Render(Tokenize(s), 1);
    RelexesExactly(s, 1);
    ExpandHasNoMarks(Tokenize(s), 1);
    NoMarksPrintsAsIs(Tokenize(out), 1);
    Lossless(out);
  }

  lemma AfterSame(t: string, a: string, b: string)
    requires a != b
    ensures t + a != t + b
  {
    assert (t + a)[|t|..] == a && (t + b)[|t|..] == b;
  }

  lemma {:induction false} MarksChange(ps: seq<Piece>, k: nat)
    requires Marks(ps) > 0
    ensures Render(ps, k) != Concat(ps)
  {
    var rendered, rest := Render(ps[1..], After(ps[0], k)), Concat(ps[1..]);
    if ps[0].Mark? {
      assert (("$" + Dec(k)) + rendered)[0] == '$' && ("?" + rest)[0] == '?';
    } else {
      MarksChange(ps[1..], k);
      AfterSame(Text(ps[0]), rendered, rest);
    }
  }

  /** A text, and so the output of a first application, is left as it is exactly when it has no placeholder. */
  lemma UnchangedExactly(s: string)
    ensures Render(Tokenize(s), 1) == s <==> Marks(Tokenize(s)) == 0
  {
    Lossless(s);
    if Marks(Tokenize(s)) == 0 {
      NoMarksPrintsAsIs(Tokenize(s), 1);
    } else {
      MarksChange(Tokenize(s), 1);
    }
  }

  /** SQL with no bare `$` at all has no hazard. */
  lemma {:induction false} NoDollarNoHazard(ps: seq<Piece>)
    requires Bare('$') !in ps
    ensures !Hazard(ps)
  {
    if ps != [] {
      NoDollarNoHazard(ps[1..]);
    }
  }

  /** A dollar quote with an empty tag around one character, at the front of `rest`. */
  lemma QuotedChar(c: char, rest: string)
    requires c != '$'
    ensures Tokenize(['$', '$', c, '$', '$'] + rest) == [Dollar(['$', '$', c, '$', '$'])] + Tokenize(rest)
  {
    var q := ['$', '$', c, '$', '$'];
    var s := q + rest;
    assert s[0] == '$' && s[1] == '$' && s[1..][0] == '$';
    assert WordRun(s[1..]) == 0;
    assert OpenLen(s) == 2;
    var body := s[2..];
    assert body[1..][..2] == "$$" && body[..2][0] == c;
    assert CloseLen(body[1..], "$$") == 2 && CloseLen(body, "$$") == 3;
    assert s[..2] == "$$" && s[..5] == q && s[5..] == rest;
    DollarHead(s);
  }

  lemma BareDollarMark(rest: string)
    ensures Tokenize("$?" + rest) == [Bare('$')] + ([Mark] + Tokenize(rest))
  {
    var s := "$?" + rest;
    assert s[1..] == ['?'] + rest;
    assert s[1..][0] == '?' && WordRun(s[1..]) == 0 && OpenLen(s) == 0;
    PlainHead(s);
    MarkFirst(rest);
  }

  lemma ExposedTokens(rest: string)
    ensures Tokenize("$?" + (['$', '$', '?', '$', '$'] + rest)) ==
            [Bare('$')] + ([Mark] + ([Dollar(['$', '$', '?', '$', '$'])] + Tokenize(rest)))
  {
    var q := ['$', '$', '?', '$', '$'];
    QuotedChar('?', rest);
    BareDollarMark(q + rest);
  }

  lemma PrintThree(q: string, tail: seq<Piece>)
    ensures Render([Bare('$')] + ([Mark] + ([Dollar(q)] + tail)), 1) == ['$'] + (['$', '1'] + (q + Render(tail, 2)))
  {
    SplitFirst(Bare('$'), [Mark] + ([Dollar(q)] + tail), 1);
    SplitFirst(Mark, [Dollar(q)] + tail, 1);
    SplitFirst(Dollar(q), tail, 2);
    assert "$" + Dec(1) == ['$', '1'];
  }

  lemma Regroup(r: string)
    ensures ['$'] + (['$', '1'] + (['$', '$', '?', '$', '$'] + r)) ==
            ['$', '$', '1', '$', '$'] + (['?'] + (['$', '$'] + r))
  {
  }

  /** `$?$$?$$` and anything after it, applied once: the first `$` has taken in the quote's opening. */
  lemma ExposedMark(rest: string)
    ensures var r := Render(Tokenize(rest), 2);
            Render(Tokenize("$?" + (['$', '$', '?', '$', '$'] + rest)), 1) ==
              ['$', '$', '1', '$', '$'] + (['?'] + (['$', '$'] + r))
  {
    ExposedTokens(rest);
    PrintThree(['$', '$', '?', '$', '$'], Tokenize(rest));
    Regroup(Render(Tokenize(rest), 2));
  }

  lemma MarkFirst(x: string)
    ensures Tokenize(['?'] + x) == [Mark] + Tokenize(x)
  {
    WordHead(['?'] + x);
    assert (['?'] + x)[1..] == x;
  }

  /** With the hazard a second application can number a `?` that the first one protected. */
  lemma SecondApplicationCanChange(rest: string)
    ensures var out := Render(Tokenize("$?" + (['$', '$', '?', '$', '$'] + rest)), 1);
            Render(Tokenize(out), 1) != out
  {
    var q, x := ['$', '$', '1', '$', '$'], ['$', '$'] + Render(Tokenize(rest), 2);
    ExposedMark(rest);
    QuotedChar('1', ['?'] + x);
    MarkFirst(x);
    SplitFirst(Dollar(q), [Mark] + Tokenize(x), 1);
    SplitFirst(Mark, Tokenize(x), 1);
    var again := q + (("$" + Dec(1)) + Render(Tokenize(x), 2));
    assert again[5] == '$' && (q + (['?'] + x))[5] == '?';
  }
}
