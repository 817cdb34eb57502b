/**
 * One turn's tokens per model, from a result's `usage` and `modelUsage`
 * (src/background/skill-check.ts `turnModelTokens`), and their price
 * (src/background/prices.ts). A record of tokens per model is the list of its
 * entries in key order, each key once.
 */
module TurnUsage {
  import opened Common

  datatype Kind = Input | Output | CacheRead | CacheWrite

  datatype Tokens = Tokens(input: int, output: int, cacheRead: int, cacheWrite: int) {
    function At(k: Kind): int {
      match k
      case Input => input
      case Output => output
      case CacheRead => cacheRead
      case CacheWrite => cacheWrite
    }
  }

  predicate IsZero(t: Tokens) {
    t.input == 0 && t.output == 0 && t.cacheRead == 0 && t.cacheWrite == 0
  }

  predicate NonNegative(t: Tokens) {
    t.input >= 0 && t.output >= 0 && t.cacheRead >= 0 && t.cacheWrite >= 0
  }

  /** A model id; the empty one stands for the run's own model. */
  datatype Model = Model(id: string)

  datatype Entry = Entry(model: Model, tokens: Tokens)

  type ModelTokens = seq<Entry>

  /** A JavaScript record: no key occurs twice. */
  ghost predicate Distinct(r: ModelTokens) {
    forall i, j :: 0 <= i < j < |r| ==> r[i].model != r[j].model
  }

  predicate AllNonNegative(r: ModelTokens) {
    forall i :: 0 <= i < |r| ==> NonNegative(r[i].tokens)
  }

  /** A model's count of one kind; a model with no entry has none. */
  function CountOf(r: ModelTokens, m: Model, k: Kind): int {
    if r == [] then 0
    else if r[|r| - 1].model == m then r[|r| - 1].tokens.At(k)
    else CountOf(r[..|r| - 1], m, k)
  }

  function Sum(r: ModelTokens, k: Kind): int {
    if r == [] then 0 else Sum(r[..|r| - 1], k) + r[|r| - 1].tokens.At(k)
  }

  /** `same(sum(r), t)`. */
  predicate SumsTo(r: ModelTokens, t: Tokens) {
    && Sum(r, Input) == t.input && Sum(r, Output) == t.output
    && Sum(r, CacheRead) == t.cacheRead && Sum(r, CacheWrite) == t.cacheWrite
  }

  function NonZero(r: ModelTokens): ModelTokens {
    if r == [] then []
    else
      var kept := NonZero(r[..|r| - 1]);
      if IsZero(r[|r| - 1].tokens) then kept else kept + [r[|r| - 1]]
  }

  function Since(t: Tokens, prev: ModelTokens, m: Model): Tokens {
    Tokens(t.input - CountOf(prev, m, Input), t.output - CountOf(prev, m, Output),
           t.cacheRead - CountOf(prev, m, CacheRead), t.cacheWrite - CountOf(prev, m, CacheWrite))
  }

  /** The difference from the previous result's record, for every model of this one. */
  function DeltaOf(cur: ModelTokens, prev: ModelTokens): (d: ModelTokens)
    ensures |d| == |cur|
    ensures forall i :: 0 <= i < |cur| ==> d[i] == Entry(cur[i].model, Since(cur[i].tokens, prev, cur[i].model))
  {
    seq(|cur|, i requires 0 <= i < |cur| => Entry(cur[i].model, Since(cur[i].tokens, prev, cur[i].model)))
  }

  function TurnModelTokens(cur: Option<ModelTokens>, prev: Option<ModelTokens>, turn: Tokens): ModelTokens {
    var now := if cur.Some? then cur.value else [];
    if now != [] && SumsTo(now, turn) then NonZero(now)
    else if now != [] && prev.Some? && AllNonNegative(DeltaOf(now, prev.value))
      && SumsTo(DeltaOf(now, prev.value), turn)
    then NonZero(DeltaOf(now, prev.value))
    else if IsZero(turn) then []
    else [Entry(if |now| == 1 then now[0].model else Model(""), turn)]
  }

  /** The method, with the loop that fills the difference and notes a negative one. */
  method TurnTokens(cur: Option<ModelTokens>, prev: Option<ModelTokens>, turn: Tokens) returns (r: ModelTokens)
    ensures r == TurnModelTokens(cur, prev, turn)
  {
    var now := if cur.Some? then cur.value else [];
    if now != [] {
      if SumsTo(now, turn) {
        return NonZero(now);
      }
      if prev.Some? {
        var delta: ModelTokens := [];
        var consistent := true;
        for i := 0 to |now|
          invariant |delta| == i && delta == DeltaOf(now, prev.value)[..i]
          invariant consistent <==> AllNonNegative(delta)
        {
          var d := Since(now[i].tokens, prev.value, now[i].model);
          if !NonNegative(d) {
            consistent := false;
          }
          delta := delta + [Entry(now[i].model, d)];
          assert delta[i].tokens == d;
        }
        assert delta == DeltaOf(now, prev.value);
        if consistent && SumsTo(delta, turn) {
          return NonZero(delta);
        }
      }
    }
    if IsZero(turn) {
      return [];
    }
    r := [Entry(if |now| == 1 then now[0].model else Model(""), turn)];
  }

  // ---------------------------------------------------------- always the turn's sum

  lemma {:induction false} NonZeroSum(r: ModelTokens, k: Kind)
    ensures Sum(NonZero(r), k) == Sum(r, k)
  {
    if r != [] {
      NonZeroSum(r[..|r| - 1], k);
      var kept := NonZero(r[..|r| - 1]);
      assert (kept + [r[|r| - 1]])[..|kept|] == kept;
    }
  }

  lemma {:induction false} NonZeroEntries(r: ModelTokens)
    requires Distinct(r)
    ensures forall e :: e in NonZero(r) <==> e in r && !IsZero(e.tokens)
    ensures Distinct(NonZero(r))
  {
    if r != [] {
      KeyOnce(r);
      NonZeroEntries(r[..|r| - 1]);
      assert r == r[..|r| - 1] + [r[|r| - 1]];
    }
  }

  lemma {:induction false} NonZeroCounts(r: ModelTokens, m: Model, k: Kind)
    requires Distinct(r)
    ensures CountOf(NonZero(r), m, k) == CountOf(r, m, k)
  {
    if r != [] {
      var n := |r| - 1;
      KeyOnce(r);
      NonZeroCounts(r[..n], m, k);
      var kept := NonZero(r[..n]);
      assert (kept + [r[n]])[..|kept|] == kept;
      if r[n].model == m {
        Absent(r[..n], m, k);
      }
    }
  }

  lemma KeyOnce(r: ModelTokens)
    requires r != [] && Distinct(r)
    ensures Distinct(r[..|r| - 1])
    ensures forall e :: e in r[..|r| - 1] ==> e.model != r[|r| - 1].model
  {
  }

  lemma {:induction false} Absent(r: ModelTokens, m: Model, k: Kind)
    requires forall e :: e in r ==> e.model != m
    ensures CountOf(r, m, k) == 0
  {
    if r != [] {
      assert r[|r| - 1] in r;
      Absent(r[..|r| - 1], m, k);
    }
  }

  /** An attribution of a turn: no model twice, no empty entry, the turn's own sum. */
  ghost predicate Attribution(r: ModelTokens, turn: Tokens) {
    SumsTo(r, turn) && Distinct(r) && forall e :: e in r ==> !IsZero(e.tokens)
  }

  lemma CleanedKeeps(r: ModelTokens, turn: Tokens)
    requires Distinct(r)
    ensures SumsTo(r, turn) ==> Attribution(NonZero(r), turn)
    ensures AllNonNegative(r) ==> AllNonNegative(NonZero(r))
  {
    NonZeroSum(r, Input);
    NonZeroSum(r, Output);
    NonZeroSum(r, CacheRead);
    NonZeroSum(r, CacheWrite);
    NonZeroEntries(r);
    assert forall i :: 0 <= i < |NonZero(r)| ==> NonZero(r)[i] in NonZero(r);
  }

  lemma OneEntry(e: Entry, turn: Tokens)
    requires e.tokens == turn && !IsZero(turn)
    ensures Attribution([e], turn)
  {
    assert [e][..0] == [];
  }

  /**
   * Whatever the CLI reports, the attributed tokens are exactly the turn's own usage, model by model
   * without repetition; and when its counts are not negative, no entry is negative or empty.
   */
  lemma SumsToTheTurn(cur: Option<ModelTokens>, prev: Option<ModelTokens>, turn: Tokens)
    requires cur.Some? ==> Distinct(cur.value)
    ensures Attribution(TurnModelTokens(cur, prev, turn), turn)
    ensures (cur.Some? ==> AllNonNegative(cur.value)) && NonNegative(turn) ==>
            AllNonNegative(TurnModelTokens(cur, prev, turn))
  {
    var now := if cur.Some? then cur.value else [];
    CleanedKeeps(now, turn);
    if prev.Some? {
      CleanedKeeps(DeltaOf(now, prev.value), turn);
    }
    if !IsZero(turn) {
      OneEntry(Entry(if |now| == 1 then now[0].model else Model(""), turn), turn);
    }
  }

  // ------------------------------------------------------------------ weighing

  /** What one token of a kind weighs for a model: its price, or 1 for the kind being counted. */
  type Weights = (Model, Kind) -> int

  function WeightOf(t: Tokens, m: Model, w: Weights): int {
    t.input * w(m, Input) + t.output * w(m, Output) + t.cacheRead * w(m, CacheRead) + t.cacheWrite * w(m, CacheWrite)
  }

  /** The weight of a record, entry by entry. */
  function Total(r: ModelTokens, w: Weights): int {
    if r == [] then 0 else Total(r[..|r| - 1], w) + WeightOf(r[|r| - 1].tokens, r[|r| - 1].model, w)
  }

  function CountsOf(r: ModelTokens, m: Model): Tokens {
    Tokens(CountOf(r, m, Input), CountOf(r, m, Output), CountOf(r, m, CacheRead), CountOf(r, m, CacheWrite))
  }

  /** The weight of a record over a list of models. */
  function Over(ms: seq<Model>, r: ModelTokens, w: Weights): int {
    if ms == [] then 0 else Over(ms[..|ms| - 1], r, w) + WeightOf(CountsOf(r, ms[|ms| - 1]), ms[|ms| - 1], w)
  }

  lemma {:induction false} OverNone(ms: seq<Model>, w: Weights)
    ensures Over(ms, [], w) == 0
  {
    if ms != [] {
      OverNone(ms[..|ms| - 1], w);
    }
  }

  lemma OneMoreCounts(r: ModelTokens, e: Entry, m: Model)
    ensures CountsOf(r + [e], m) == if e.model == m then e.tokens else CountsOf(r, m)
  {
    assert (r + [e])[..|r|] == r;
  }

  /** One more entry changes the weight over a list that names its model once by that entry. */
  lemma {:induction false} OverOneMore(ms: seq<Model>, r: ModelTokens, e: Entry, w: Weights)
    requires NoDuplicates(ms) && (forall x :: x in r ==> x.model != e.model)
    ensures Over(ms, r + [e], w) == Over(ms, r, w) + if e.model in ms then WeightOf(e.tokens, e.model, w) else 0
  {
    if ms != [] {
      var n := |ms| - 1;
      OverOneMore(ms[..n], r, e, w);
      OneMoreCounts(r, e, ms[n]);
      assert ms == ms[..n] + [ms[n]];
      if ms[n] == e.model {
        assert e.model !in ms[..n];
        AbsentWeighsNothing(r, e.model, w);
      }
    }
  }

  lemma AbsentWeighsNothing(r: ModelTokens, m: Model, w: Weights)
    requires forall x :: x in r ==> x.model != m
    ensures WeightOf(CountsOf(r, m), m, w) == 0
  {
    Absent(r, m, Input);
    Absent(r, m, Output);
    Absent(r, m, CacheRead);
    Absent(r, m, CacheWrite);
  }

  lemma {:induction false} TotalIsOver(ms: seq<Model>, r: ModelTokens, w: Weights)
    requires NoDuplicates(ms) && Distinct(r) && forall e :: e in r ==> e.model in ms
    ensures Total(r, w) == Over(ms, r, w)
  {
    if r == [] {
      OverNone(ms, w);
    } else {
      var n := |r| - 1;
      KeyOnce(r);
      assert r == r[..n] + [r[n]] && r[n] in r;
      TotalIsOver(ms, r[..n], w);
      OverOneMore(ms, r[..n], r[n], w);
    }
  }

  /** Model by model, `a` is `b` and `c` together. */
  ghost predicate AddsUp(a: ModelTokens, b: ModelTokens, c: ModelTokens) {
    forall m, k :: CountOf(a, m, k) == CountOf(b, m, k) + CountOf(c, m, k)
  }

  lemma Distribute(b: int, c: int, w: int)
    ensures (b + c) * w == b * w + c * w
  {
  }

  lemma WeightsAdd(a: Tokens, b: Tokens, c: Tokens, m: Model, w: Weights)
    requires forall k :: a.At(k) == b.At(k) + c.At(k)
    ensures WeightOf(a, m, w) == WeightOf(b, m, w) + WeightOf(c, m, w)
  {
    assert a.At(Input) == a.input && a.At(Output) == a.output && a.At(CacheRead) == a.cacheRead
           && a.At(CacheWrite) == a.cacheWrite;
    Distribute(b.input, c.input, w(m, Input));
    Distribute(b.output, c.output, w(m, Output));
    Distribute(b.cacheRead, c.cacheRead, w(m, CacheRead));
    Distribute(b.cacheWrite, c.cacheWrite, w(m, CacheWrite));
  }

  lemma {:induction false} OverAdds(ms: seq<Model>, a: ModelTokens, b: ModelTokens, c: ModelTokens, w: Weights)
    requires AddsUp(a, b, c)
    ensures Over(ms, a, w) == Over(ms, b, w) + Over(ms, c, w)
  {
    if ms != [] {
      var m := ms[|ms| - 1];
      OverAdds(ms[..|ms| - 1], a, b, c, w);
      forall k: Kind
        ensures CountsOf(a, m).At(k) == CountsOf(b, m).At(k) + CountsOf(c, m).At(k)
      {
        assert CountOf(a, m, k) == CountOf(b, m, k) + CountOf(c, m, k);
      }
      WeightsAdd(CountsOf(a, m), CountsOf(b, m), CountsOf(c, m), m, w);
    }
  }

  /** The models of a record that are not in the list yet, appended. */
  function WithModels(ms: seq<Model>, r: ModelTokens): seq<Model> {
    if r == [] then ms
    else
      var more := WithModels(ms, r[..|r| - 1]);
      if r[|r| - 1].model in more then more else more + [r[|r| - 1].model]
  }

  lemma {:induction false} WithModelsCovers(ms: seq<Model>, r: ModelTokens)
    requires NoDuplicates(ms)
    ensures NoDuplicates(WithModels(ms, r))
    ensures forall m :: m in ms ==> m in WithModels(ms, r)
    ensures forall e :: e in r ==> e.model in WithModels(ms, r)
  {
    if r != [] {
      WithModelsCovers(ms, r[..|r| - 1]);
      assert r == r[..|r| - 1] + [r[|r| - 1]];
    }
  }

  /** Records that add up model by model add up in every weight, whatever models each names. */
  lemma TotalsAdd(a: ModelTokens, b: ModelTokens, c: ModelTokens, w: Weights)
    requires Distinct(a) && Distinct(b) && Distinct(c) && AddsUp(a, b, c)
    ensures Total(a, w) == Total(b, w) + Total(c, w)
  {
    var x := WithModels([], a);
    WithModelsCovers([], a);
    var y := WithModels(x, b);
    WithModelsCovers(x, b);
    var z := WithModels(y, c);
    WithModelsCovers(y, c);
    TotalIsOver(z, a, w);
    TotalIsOver(z, b, w);
    TotalIsOver(z, c, w);
    OverAdds(z, a, b, c, w);
  }

  /** A sum of one kind is the weight that counts that kind alone. */
  lemma {:induction false} SumIsTotal(r: ModelTokens, k: Kind, w: Weights)
    requires forall m, j :: w(m, j) == if j == k then 1 else 0
    ensures Sum(r, k) == Total(r, w)
  {
    if r != [] {
      SumIsTotal(r[..|r| - 1], k, w);
    }
  }

  lemma SumsAdd(a: ModelTokens, b: ModelTokens, c: ModelTokens, k: Kind)
    requires Distinct(a) && Distinct(b) && Distinct(c) && AddsUp(a, b, c)
    ensures Sum(a, k) == Sum(b, k) + Sum(c, k)
  {
    var w: Weights := (m: Model, j: Kind) => if j == k then 1 else 0;
    SumIsTotal(a, k, w);
    SumIsTotal(b, k, w);
    SumIsTotal(c, k, w);
    TotalsAdd(a, b, c, w);
  }

  // ------------------------------------------------------------- exact attribution

  /** One turn of a session: what each model really used, and what the result reports. */
  datatype Turn = Turn(used: ModelTokens, report: ModelTokens)

  /** The shape of the reports: each result's own tokens, or the process's running total. */
  datatype Shape = PerTurn | RunningTotal

  ghost predicate Reports(t: Turn, before: ModelTokens, shape: Shape) {
    if shape == PerTurn then AddsUp(t.report, [], t.used) else AddsUp(t.report, before, t.used)
  }

  function LastReport(turns: seq<Turn>): ModelTokens {
    if turns == [] then [] else turns[|turns| - 1].report
  }

  /** The results of a fresh process, their reports in one shape throughout. */
  ghost predicate Session(turns: seq<Turn>, shape: Shape) {
    turns != [] ==>
      var before, t := turns[..|turns| - 1], turns[|turns| - 1];
      && Session(before, shape)
      && Distinct(t.used) && AllNonNegative(t.used) && Distinct(t.report) && AllNonNegative(t.report)
      && Reports(t, LastReport(before), shape)
  }

  function Usage(used: ModelTokens): Tokens {
    Tokens(Sum(used, Input), Sum(used, Output), Sum(used, CacheRead), Sum(used, CacheWrite))
  }

  /** What the manager attributes to the last turn: the snapshot is the previous result's report, if any. */
  function Attributed(turns: seq<Turn>): ModelTokens
    requires turns != []
  {
    var n := |turns| - 1;
    TurnModelTokens(Some(turns[n].report), if n == 0 then None else Some(turns[n - 1].report), Usage(turns[n].used))
  }

  lemma {:induction false} NonNegativeCounts(r: ModelTokens, k: Kind, m: Model)
    requires AllNonNegative(r)
    ensures 0 <= CountOf(r, m, k) <= Sum(r, k)
  {
    if r != [] {
      assert NonNegative(r[|r| - 1].tokens);
      NonNegativeCounts(r[..|r| - 1], k, m);
    }
  }

  lemma {:induction false} DeltaCounts(cur: ModelTokens, prev: ModelTokens, m: Model, k: Kind)
    requires Distinct(cur)
    ensures CountOf(DeltaOf(cur, prev), m, k) ==
            if exists e :: e in cur && e.model == m then CountOf(cur, m, k) - CountOf(prev, m, k) else 0
  {
    if cur != [] {
      var n := |cur| - 1;
      KeyOnce(cur);
      DeltaCounts(cur[..n], prev, m, k);
      var d := DeltaOf(cur, prev);
      assert d[..n] == DeltaOf(cur[..n], prev);
      assert cur == cur[..n] + [cur[n]] && cur[n] in cur;
      assert d[n] == Entry(cur[n].model, Since(cur[n].tokens, prev, cur[n].model));
      if cur[n].model != m {
        assert CountOf(d, m, k) == CountOf(d[..n], m, k) && CountOf(cur, m, k) == CountOf(cur[..n], m, k);
        assert (exists e :: e in cur && e.model == m) <==> exists e :: e in cur[..n] && e.model == m;
      }
    }
  }

  /** The difference of two running totals is the turn's own use, never negative. */
  lemma DeltaIsUsed(cur: ModelTokens, prev: ModelTokens, used: ModelTokens)
    requires Distinct(cur) && Distinct(used) && AllNonNegative(prev) && AllNonNegative(used) && AllNonNegative(cur)
    requires AddsUp(cur, prev, used)
    ensures AddsUp(DeltaOf(cur, prev), [], used) && AllNonNegative(DeltaOf(cur, prev))
  {
    var d := DeltaOf(cur, prev);
    forall m, k
      ensures CountOf(d, m, k) == CountOf([], m, k) + CountOf(used, m, k)
      ensures CountOf(d, m, k) >= 0
    {
      DeltaCounts(cur, prev, m, k);
      NonNegativeCounts(prev, k, m);
      NonNegativeCounts(used, k, m);
      assert CountOf(cur, m, k) == CountOf(prev, m, k) + CountOf(used, m, k);
      if !(exists e :: e in cur && e.model == m) {
        Absent(cur, m, k);
      }
    }
    forall i | 0 <= i < |d|
      ensures NonNegative(d[i].tokens)
    {
      EntryCounts(cur, i);
      var m := cur[i].model;
      assert forall k :: CountOf(cur, m, k) == CountOf(prev, m, k) + CountOf(used, m, k);
      NonNegativeCounts(used, Input, m);
      NonNegativeCounts(used, Output, m);
      NonNegativeCounts(used, CacheRead, m);
      NonNegativeCounts(used, CacheWrite, m);
    }
  }

  lemma {:induction false} EntryCounts(r: ModelTokens, i: nat)
    requires Distinct(r) && i < |r|
    ensures CountsOf(r, r[i].model) == r[i].tokens
  {
    if i < |r| - 1 {
      EntryCounts(r[..|r| - 1], i);
    }
  }

  lemma UsedSums(r: ModelTokens, used: ModelTokens)
    requires Distinct(r) && Distinct(used) && AddsUp(r, [], used)
    ensures SumsTo(r, Usage(used))
  {
    SumsAdd(r, [], used, Input);
    SumsAdd(r, [], used, Output);
    SumsAdd(r, [], used, CacheRead);
    SumsAdd(r, [], used, CacheWrite);
  }

  lemma Cleaned(r: ModelTokens, used: ModelTokens)
    requires Distinct(r) && AddsUp(r, [], used)
    ensures AddsUp(NonZero(r), [], used)
  {
    forall m, k
      ensures CountOf(NonZero(r), m, k) == CountOf([], m, k) + CountOf(used, m, k)
    {
      NonZeroCounts(r, m, k);
      assert CountOf(r, m, k) == CountOf([], m, k) + CountOf(used, m, k);
    }
  }

  /** When the running total happens to equal the turn's own sum, everything before it was nothing. */
  lemma EqualSumMeansNoneBefore(cur: ModelTokens, prev: ModelTokens, used: ModelTokens)
    requires Distinct(cur) && Distinct(prev) && Distinct(used) && AllNonNegative(prev)
    requires AddsUp(cur, prev, used) && SumsTo(cur, Usage(used))
    ensures AddsUp(cur, [], used)
  {
    forall m, k
      ensures CountOf(cur, m, k) == CountOf([], m, k) + CountOf(used, m, k)
    {
      SumsAdd(cur, prev, used, k);
      NonNegativeCounts(prev, k, m);
      assert CountOf(cur, m, k) == CountOf(prev, m, k) + CountOf(used, m, k);
      assert Sum(cur, k) == Usage(used).At(k) == Sum(used, k);
    }
  }

  /** With no model reported at all, the turn used nothing. */
  lemma NothingReported(prev: ModelTokens, used: ModelTokens)
    requires Distinct(prev) && Distinct(used) && AllNonNegative(prev) && AllNonNegative(used) && AddsUp([], prev, used)
    ensures IsZero(Usage(used)) && AddsUp([], [], used)
  {
    var none: ModelTokens := [];
    forall m, k
      ensures CountOf(none, m, k) == CountOf(none, m, k) + CountOf(used, m, k)
    {
      SumsAdd(none, prev, used, k);
      assert CountOf(none, m, k) == CountOf(prev, m, k) + CountOf(used, m, k);
      NonNegativeCounts(prev, k, m);
      NonNegativeCounts(used, k, m);
    }
    forall k
      ensures Sum(used, k) == 0
    {
      SumsAdd(none, prev, used, k);
      NonNegativeCounts(prev, k, Model(""));
      NonNegativeCounts(used, k, Model(""));
    }
    ZeroUsage(used);
  }

  lemma ZeroUsage(used: ModelTokens)
    requires forall k :: Sum(used, k) == 0
    ensures IsZero(Usage(used))
  {
  }

  lemma OneTurnExact(cur: ModelTokens, prev: Option<ModelTokens>, used: ModelTokens)
    requires Distinct(cur) && Distinct(used) && AllNonNegative(cur) && AllNonNegative(used)
    requires prev.Some? ==> Distinct(prev.value) && AllNonNegative(prev.value)
    requires AddsUp(cur, [], used) || (prev.Some? && AddsUp(cur, prev.value, used))
    ensures AddsUp(TurnModelTokens(Some(cur), prev, Usage(used)), [], used)
  {
    var before := if AddsUp(cur, [], used) then [] else prev.value;
    if cur == [] {
      NothingReported(before, used);
    } else if SumsTo(cur, Usage(used)) {
      EqualSumMeansNoneBefore(cur, before, used);
      Cleaned(cur, used);
    } else if AddsUp(cur, [], used) {
      UsedSums(cur, used);
    } else {
      DeltaIsUsed(cur, before, used);
      UsedSums(DeltaOf(cur, before), used);
      Cleaned(DeltaOf(cur, before), used);
    }
  }

  /**
   * Exact attribution: over a session of a fresh process, in either shape of report, the tokens
   * attributed to each turn are exactly what each model used in that turn.
   */
  lemma AttributionIsExact(turns: seq<Turn>, shape: Shape)
    requires Session(turns, shape) && turns != []
    ensures AddsUp(Attributed(turns), [], turns[|turns| - 1].used)
  {
    var n := |turns| - 1;
    var before := turns[..n];
    assert Session(before, shape);
    OneTurnExact(turns[n].report, if n == 0 then None else Some(turns[n - 1].report), turns[n].used);
  }

  // -------------------------------------------------------------------- telescoping

  /** The weight attributed over a whole session. */
  function AttributedTotal(turns: seq<Turn>, w: Weights): int {
    if turns == [] then 0 else AttributedTotal(turns[..|turns| - 1], w) + Total(Attributed(turns), w)
  }

  lemma AttributedDistinct(turns: seq<Turn>, shape: Shape)
    requires Session(turns, shape) && turns != []
    ensures Distinct(Attributed(turns))
  {
    var n := |turns| - 1;
    SumsToTheTurn(Some(turns[n].report), if n == 0 then None else Some(turns[n - 1].report), Usage(turns[n].used));
  }

  /**
   * Over a session that reports running totals, whatever is charged per token of each model and kind,
   * the charges of the turns add up to the charge of the final report: tokens and cost telescope.
   */
  lemma {:induction false} AttributionTelescopes(turns: seq<Turn>, w: Weights)
    requires Session(turns, RunningTotal)
    ensures AttributedTotal(turns, w) == Total(LastReport(turns), w)
  {
    if turns != [] {
      var before, t := turns[..|turns| - 1], turns[|turns| - 1];
      AttributionTelescopes(before, w);
      AttributionIsExact(turns, RunningTotal);
      AttributedDistinct(turns, RunningTotal);
      assert Distinct(LastReport(before));
      TotalsAdd(Attributed(turns), [], t.used, w);
      TotalsAdd(t.report, LastReport(before), t.used, w);
    }
  }

  // ------------------------------------------------------------------------ price

  /** The price of a token of each kind, by model. */
  type PriceTable = map<Model, Tokens>

  const PROVIDER := "anthropic/"

  /** A snapshot date at the end of an id: a dash and eight digits. */
  predicate DateSuffix(s: string) {
    |s| == 9 && s[0] == '-' && forall i :: 1 <= i < 9 ==> '0' <= s[i] <= '9'
  }

  predicate Dated(id: string) {
    |id| >= 9 && DateSuffix(id[|id| - 9..])
  }

  function Undated(id: string): seq<string> {
    if Dated(id) then [id[..|id| - 9]] else []
  }

  function BareId(id: string): string {
    if |id| >= |PROVIDER| && id[..|PROVIDER|] == PROVIDER then id[|PROVIDER|..] else id
  }

  /** The ids a model is looked up by, in order. */
  function LookupIds(id: string): seq<string> {
    [id, BareId(id)] + Undated(id) + Undated(BareId(id))
  }

  function FirstPrice(table: PriceTable, ids: seq<string>): Option<Tokens> {
    if ids == [] then None
    else if Model(ids[0]) in table then Some(table[Model(ids[0])])
    else FirstPrice(table, ids[1..])
  }

  function PriceOf(table: PriceTable, m: Model): Option<Tokens> {
    FirstPrice(table, LookupIds(m.id))
  }

  /** `id` is `base` with the provider's prefix, a snapshot date, both or neither. */
  ghost predicate Names(id: string, base: string) {
    exists pre, date :: NamesWith(id, base, pre, date)
  }

  ghost predicate NamesWith(id: string, base: string, pre: string, date: string) {
    pre in {"", PROVIDER} && (date == "" || DateSuffix(date)) && id == (pre + base) + date
  }

  lemma NamesIs(id: string, base: string, pre: string, date: string)
    requires NamesWith(id, base, pre, date)
    ensures base in LookupIds(id)
  {
    var n := |id| - |date|;
    assert id[..n] == pre + base && id[n..] == date;
    if pre == PROVIDER {
      assert id[..|PROVIDER|] == PROVIDER && id[|PROVIDER|..] == base + date;
      assert BareId(id) == base + date;
      assert (base + date)[|base|..] == date && (base + date)[..|base|] == base;
      assert date == "" ==> base + date == base;
    } else {
      assert pre + base == base;
      assert date == "" ==> base + date == base;
    }
  }

  lemma BareIs(id: string) returns (pre: string)
    ensures pre in {"", PROVIDER} && id == pre + BareId(id)
  {
    pre := if |id| >= |PROVIDER| && id[..|PROVIDER|] == PROVIDER then PROVIDER else "";
  }

  lemma UndatedNames(id: string, pre: string, bare: string, base: string)
    requires pre in {"", PROVIDER} && id == pre + bare && (base == bare || base in Undated(bare))
    ensures Names(id, base)
  {
    if base in Undated(bare) {
      assert NamesWith(id, base, pre, bare[|bare| - 9..]);
    } else {
      assert id == (pre + base) + "";
      assert NamesWith(id, base, pre, "");
    }
  }

  lemma LooksUpNames(id: string, base: string)
    requires base in LookupIds(id)
    ensures Names(id, base)
  {
    var pre := BareIs(id);
    if base == BareId(id) || base in Undated(BareId(id)) {
      UndatedNames(id, pre, BareId(id), base);
    } else {
      assert id == "" + id;
      UndatedNames(id, "", id, base);
    }
  }

  lemma {:induction false} FirstPriceIs(table: PriceTable, ids: seq<string>)
    ensures FirstPrice(table, ids).Some? <==> exists id :: id in ids && Model(id) in table
  {
    if ids != [] {
      FirstPriceIs(table, ids[1..]);
      assert ids == [ids[0]] + ids[1..];
    }
  }

  /**
   * A model has a price exactly when the table names it, with or without its provider and its date, and its own
   * entry comes first.
   */
  lemma PricedExactly(table: PriceTable, m: Model)
    ensures PriceOf(table, m).Some? <==> exists base :: Model(base) in table && Names(m.id, base)
    ensures m in table ==> PriceOf(table, m) == Some(table[m])
  {
    FirstPriceIs(table, LookupIds(m.id));
    if base :| Model(base) in table && Names(m.id, base) {
      var pre, date :| NamesWith(m.id, base, pre, date);
      NamesIs(m.id, base, pre, date);
    }
    if id :| id in LookupIds(m.id) && Model(id) in table {
      LooksUpNames(m.id, id);
    }
  }

  /** How a model is priced, if it is. */
  type Prices = Model -> Option<Tokens>

  function PricesOf(table: PriceTable): Prices {
    (m: Model) => PriceOf(table, m)
  }

  function PriceWeights(prices: Prices): Weights {
    (m: Model, k: Kind) => if prices(m).Some? then prices(m).value.At(k) else 0
  }

  function Unpriced(prices: Prices, r: ModelTokens): seq<Model> {
    if r == [] then []
    else Unpriced(prices, r[..|r| - 1]) + if prices(r[|r| - 1].model).Some? then [] else [r[|r| - 1].model]
  }

  function Add(a: Tokens, b: Tokens): Tokens {
    Tokens(a.input + b.input, a.output + b.output, a.cacheRead + b.cacheRead, a.cacheWrite + b.cacheWrite)
  }

  function TokensOf(r: ModelTokens): Tokens {
    if r == [] then Tokens(0, 0, 0, 0) else Add(TokensOf(r[..|r| - 1]), r[|r| - 1].tokens)
  }

  lemma {:induction false} TokensOfSums(r: ModelTokens)
    ensures SumsTo(r, TokensOf(r))
  {
    if r != [] {
      TokensOfSums(r[..|r| - 1]);
    }
  }

  lemma OneMoreEntry(r: ModelTokens, i: nat, prices: Prices)
    requires i < |r|
    ensures TokensOf(r[..i + 1]) == Add(TokensOf(r[..i]), r[i].tokens)
    ensures Total(r[..i + 1], PriceWeights(prices)) ==
            Total(r[..i], PriceWeights(prices)) + WeightOf(r[i].tokens, r[i].model, PriceWeights(prices))
    ensures prices(r[i].model).None? ==> WeightOf(r[i].tokens, r[i].model, PriceWeights(prices)) == 0
    ensures Unpriced(prices, r[..i + 1]) ==
            Unpriced(prices, r[..i]) + if prices(r[i].model).Some? then [] else [r[i].model]
  {
    assert r[..i + 1][..i] == r[..i];
  }

  lemma {:induction false} NoneUnpriced(prices: Prices, r: ModelTokens)
    ensures Unpriced(prices, r) == [] <==> forall k :: 0 <= k < |r| ==> prices(r[k].model).Some?
  {
    if r != [] {
      var n := |r| - 1;
      NoneUnpriced(prices, r[..n]);
      assert forall k :: 0 <= k < n ==> r[..n][k] == r[k];
    }
  }

  /** The bill of a record, entry by entry: each kind of token at its own price, and nothing for a model without one. */
  ghost predicate Billed(prices: Prices, r: ModelTokens, sums: seq<int>) {
    && |sums| == |r| + 1 && sums[0] == 0
    && forall i :: 0 <= i < |r| ==>
         sums[i + 1] == sums[i] +
         match prices(r[i].model)
         case None => 0
         case Some(p) =>
           var t := r[i].tokens;
           t.input * p.input + t.output * p.output + t.cacheRead * p.cacheRead + t.cacheWrite * p.cacheWrite
  }

  lemma {:induction false} TotalIsBilled(prices: Prices, r: ModelTokens) returns (sums: seq<int>)
    ensures Billed(prices, r, sums) && sums[|r|] == Total(r, PriceWeights(prices))
  {
    if r == [] {
      sums := [0];
    } else {
      var n := |r| - 1;
      var before := TotalIsBilled(prices, r[..n]);
      sums := before + [Total(r, PriceWeights(prices))];
      assert forall i :: 0 <= i < n ==> r[i] == r[..n][i];
    }
  }

  /** The models without a price, in the order of the record: those at places `at`, which are all there are. */
  ghost predicate UnpricedAt(prices: Prices, r: ModelTokens, unpriced: seq<Model>, at: seq<nat>) {
    && |at| == |unpriced|
    && (forall j, k :: 0 <= j < k < |at| ==> at[j] < at[k])
    && (forall k :: 0 <= k < |at| ==> at[k] < |r| && r[at[k]].model == unpriced[k])
    && (forall i: nat :: i < |r| && prices(r[i].model).None? ==> i in at)
    && forall k :: 0 <= k < |at| ==> prices(unpriced[k]).None?
  }

  lemma {:induction false} UnpricedInOrder(prices: Prices, r: ModelTokens) returns (at: seq<nat>)
    ensures UnpricedAt(prices, r, Unpriced(prices, r), at)
  {
    at := [];
    if r != [] {
      var n: nat := |r| - 1;
      at := UnpricedInOrder(prices, r[..n]);
      OneMoreUnpriced(prices, r[..n], r[n], Unpriced(prices, r[..n]), at);
      assert r == r[..n] + [r[n]];
      if prices(r[n].model).None? {
        at := at + [n];
      }
    }
  }

  lemma OneMoreUnpriced(prices: Prices, r: ModelTokens, e: Entry, unpriced: seq<Model>, at: seq<nat>)
    requires UnpricedAt(prices, r, unpriced, at)
    ensures if prices(e.model).None? then UnpricedAt(prices, r + [e], unpriced + [e.model], at + [|r|])
            else UnpricedAt(prices, r + [e], unpriced, at)
  {
    if prices(e.model).None? {
      assert (at + [|r|])[|at|] == |r|;
    }
    forall i: nat | i < |r| && prices((r + [e])[i].model).None?
      ensures i in at && i in at + [|r|]
    {
      assert (r + [e])[i] == r[i];
    }
  }

  /** The loop of `priceByModel` under any prices: summed tokens, priced cost, models without a price. */
  method PriceModels(prices: Prices, r: ModelTokens) returns (tokens: Tokens, cost: int, unpriced: seq<Model>)
    ensures tokens == TokensOf(r) && cost == Total(r, PriceWeights(prices)) && unpriced == Unpriced(prices, r)
  {
    tokens, cost, unpriced := Tokens(0, 0, 0, 0), 0, [];
    for i := 0 to |r|
      invariant tokens == TokensOf(r[..i])
      invariant cost == Total(r[..i], PriceWeights(prices))
      invariant unpriced == Unpriced(prices, r[..i])
    {
      var e := r[i];
      OneMoreEntry(r, i, prices);
      tokens := Add(tokens, e.tokens);
      if prices(e.model).Some? {
        cost := cost + WeightOf(e.tokens, e.model, PriceWeights(prices));
      } else {
        unpriced := unpriced + [e.model];
      }
    }
    assert r[..|r|] == r;
  }

  /** `priceByModel` at the prices its table names: each entry adds its four counts at that model's four prices. */
  method PriceByModel(table: PriceTable, r: ModelTokens)
    returns (tokens: Tokens, cost: int, unpriced: seq<Model>, ghost sums: seq<int>)
    ensures SumsTo(r, tokens)
    ensures |sums| == |r| + 1 && sums[0] == 0 && sums[|r|] == cost
    ensures forall i :: 0 <= i < |r| ==>
              sums[i + 1] == sums[i] +
              match PriceOf(table, r[i].model)
              case None => 0
              case Some(p) =>
                var t := r[i].tokens;
                t.input * p.input + t.output * p.output + t.cacheRead * p.cacheRead + t.cacheWrite * p.cacheWrite
    ensures cost == Total(r, PriceWeights(PricesOf(table)))
    ensures unpriced == Unpriced(PricesOf(table), r)
  {
    tokens, cost, unpriced := PriceModels(PricesOf(table), r);
    TokensOfSums(r);
    sums := TotalIsBilled(PricesOf(table), r);
  }
}
