/**
 * The message loop of a background pass (src/background/runner.ts): per-message
 * provisional pricing, the stop rule after every record, and the result that replaces
 * the provisional figure.
 */
module PassLoop {
  import opened Common
  import opened TurnUsage

  const PROVISIONAL_OUTPUT_TOKENS := 1_024

  datatype Outcome = Ok | StoppedBudget | Error

  datatype Subtype = Success | MaxTurns | Failure

  /** What the CLI reports; a message without usage changes nothing, and `None` is a message without an id. */
  datatype Message =
    | Assistant(id: Option<string>, model: Model, usage: Option<Tokens>)
    | Result(subtype: Subtype, byModel: ModelTokens, usage: Option<Tokens>)
    | Other

  /** A message id, or the number of a message that has none. */
  datatype Key = Named(id: string) | Anon(n: nat)

  /** A message's model and tokens; a map's values in insertion order. */
  datatype Slot = Slot(key: Key, model: Model, tokens: Tokens)

  /** What a pass does to its ledger row and reads of its pool, in order. */
  datatype Step = Wrote(tokens: Tokens, cost: int) | Looked(over: bool)

  /** The run's model (the empty id for none), its prices and its start estimate. */
  datatype Run = Run(model: Model, prices: Prices, estimate: int)

  const NONE := Model("")

  datatype Loop = Loop(
    slots: seq<Slot>, anon: nat, tokens: Tokens, cost: int,
    log: seq<Step>, outcome: Outcome, unpriced: Option<Model>, open: bool)

  function Start(): Loop {
    Loop([], 0, Tokens(0, 0, 0, 0), 0, [], Error, None, true)
  }

  // ------------------------------------------------------------------------ pricing

  /** `costUsd` at the run's prices. */
  function CostOf(run: Run, m: Model, t: Tokens): Option<int> {
    if run.prices(m).Some? then Some(WeightOf(t, m, PriceWeights(run.prices))) else None
  }

  /** Each kind of token at its own price. */
  lemma CostIs(run: Run, m: Model, t: Tokens)
    ensures CostOf(run, m, t) ==
            match run.prices(m)
            case None => None
            case Some(p) =>
              Some(t.input * p.input + t.output * p.output + t.cacheRead * p.cacheRead + t.cacheWrite * p.cacheWrite)
  {
  }

  /** At the message's model when it has a price, else at the run's. */
  function SlotCost(run: Run, s: Slot): Option<int> {
    if CostOf(run, s.model, s.tokens).Some? then CostOf(run, s.model, s.tokens)
    else if run.model != NONE then CostOf(run, run.model, s.tokens)
    else None
  }

  function PricedSum(run: Run, slots: seq<Slot>): int {
    if slots == [] then 0
    else
      var c := SlotCost(run, slots[|slots| - 1]);
      PricedSum(run, slots[..|slots| - 1]) + if c.Some? then c.value else 0
  }

  function UnpricedModels(run: Run, slots: seq<Slot>): seq<Model> {
    if slots == [] then []
    else
      UnpricedModels(run, slots[..|slots| - 1]) +
      if SlotCost(run, slots[|slots| - 1]).None? then [slots[|slots| - 1].model] else []
  }

  function TokensIn(slots: seq<Slot>): Tokens {
    if slots == [] then Tokens(0, 0, 0, 0) else Add(TokensIn(slots[..|slots| - 1]), slots[|slots| - 1].tokens)
  }

  function Max(a: int, b: int): int {
    if a > b then a else b
  }

  /** The provisional figure: never free while something has no price. */
  function ProvisionalCost(run: Run, slots: seq<Slot>): int {
    if UnpricedModels(run, slots) != [] then Max(PricedSum(run, slots), run.estimate) else PricedSum(run, slots)
  }

  method Provisional(run: Run, slots: seq<Slot>) returns (tokens: Tokens, cost: int, unpriced: seq<Model>)
    ensures tokens == TokensIn(slots) && cost == ProvisionalCost(run, slots) && unpriced == UnpricedModels(run, slots)
  {
    var c := 0;
    tokens, unpriced := Tokens(0, 0, 0, 0), [];
    for i := 0 to |slots|
      invariant tokens == TokensIn(slots[..i])
      invariant c == PricedSum(run, slots[..i]) && unpriced == UnpricedModels(run, slots[..i])
    {
      assert slots[..i + 1][..i] == slots[..i];
      tokens := Add(tokens, slots[i].tokens);
      var mc := SlotCost(run, slots[i]);
      if mc.None? {
        unpriced := unpriced + [slots[i].model];
      } else {
        c := c + mc.value;
      }
    }
    assert slots[..|slots|] == slots;
    cost := if |unpriced| > 0 then Max(c, run.estimate) else c;
  }

  // ----------------------------------------------------------------------- messages

  function IndexOf(slots: seq<Slot>, k: Key): (i: nat)
    ensures i <= |slots| && (i < |slots| ==> slots[i].key == k)
    ensures forall j :: 0 <= j < i ==> slots[j].key != k
  {
    if slots == [] then 0 else if slots[0].key == k then 0 else 1 + IndexOf(slots[1..], k)
  }

  /** `Map.set`: a key that is there keeps its place. */
  function SetSlot(slots: seq<Slot>, s: Slot): seq<Slot> {
    var i := IndexOf(slots, s.key);
    if i < |slots| then slots[i := s] else slots + [s]
  }

  function Raised(t: Tokens): Tokens {
    t.(output := Max(t.output, PROVISIONAL_OUTPUT_TOKENS))
  }

  function Recorded(l: Loop, tokens: Tokens, cost: int): Loop {
    l.(tokens := tokens, cost := cost, log := l.log + [Wrote(tokens, cost)])
  }

  function SlotOf(run: Run, l: Loop, id: Option<string>, model: Model, t: Tokens): Slot {
    Slot(if id.Some? then Named(id.value) else Anon(l.anon), if model != NONE then model else run.model, Raised(t))
  }

  /** An assistant message: priced and recorded; then an unpriced model, a shutdown or the limit ends the run. */
  function AfterAssistant(
      run: Run, l: Loop, id: Option<string>, model: Model, t: Tokens, over: bool, shutdown: bool): Loop
  {
    var slots := SetSlot(l.slots, SlotOf(run, l, id, model, t));
    var unpriced := UnpricedModels(run, slots);
    var w := Recorded(l.(slots := slots, anon := if id.Some? then l.anon else l.anon + 1), TokensIn(slots),
      ProvisionalCost(run, slots));
    if unpriced != [] then w.(outcome := Error, unpriced := Some(unpriced[0]), open := false)
    else if shutdown then w.(open := false)
    else
      var looked := w.(log := w.log + [Looked(over)]);
      if over then looked.(outcome := StoppedBudget, open := false) else looked
  }

  function Models(slots: seq<Slot>): seq<Model> {
    if slots == [] then []
    else
      var before, m := Models(slots[..|slots| - 1]), slots[|slots| - 1].model;
      if m == NONE || m in before then before else before + [m]
  }

  /** A result's bare usage: at the run's model, else at the one model named on every turn. */
  function UsageCost(run: Run, slots: seq<Slot>, t: Tokens): Option<int> {
    if run.model != NONE && CostOf(run, run.model, t).Some? then CostOf(run, run.model, t)
    else if |Models(slots)| == 1 then CostOf(run, Models(slots)[0], t)
    else None
  }

  function AfterResult(run: Run, l: Loop, subtype: Subtype, byModel: ModelTokens, usage: Option<Tokens>): Loop {
    var r := l.(outcome := if subtype.Failure? then Error else Ok, open := false);
    if byModel != [] then
      var c, unpriced := Total(byModel, PriceWeights(run.prices)), Unpriced(run.prices, byModel);
      if unpriced == [] then Recorded(r, TokensOf(byModel), c)
      else
        var e := r.(outcome := Error, unpriced := Some(unpriced[0]));
        if Max(c, run.estimate) > l.cost then Recorded(e, TokensOf(byModel), Max(c, run.estimate)) else e
    else if usage.Some? then
      var c := UsageCost(run, l.slots, usage.value);
      if c.Some? then Recorded(r, usage.value, c.value)
      else Recorded(r.(outcome := Error, unpriced := Some(run.model)), usage.value, Max(l.cost, run.estimate))
    else r
  }

  function AfterMessage(run: Run, l: Loop, m: Message, over: bool, shutdown: bool): Loop {
    match m
    case Assistant(id, model, usage) =>
      if usage.None? then l else AfterAssistant(run, l, id, model, usage.value, over, shutdown)
    case Result(subtype, byModel, usage) => AfterResult(run, l, subtype, byModel, usage)
    case Other => l
  }

  /** What the pool and the shutdown signal answer after each message. */
  type Answers = nat -> bool

  /** The loop after the first `i` messages. */
  function After(run: Run, ms: seq<Message>, over: Answers, shutdown: Answers): Loop {
    if ms == [] then Start()
    else
      var n := |ms| - 1;
      var l := After(run, ms[..n], over, shutdown);
      if l.open then AfterMessage(run, l, ms[n], over(n), shutdown(n)) else l
  }

  /** The outcome a run is settled with, once the loop is over or the stream has ended. */
  function Settled(l: Loop, shutdown: bool): Outcome {
    if l.outcome.StoppedBudget? then StoppedBudget else if shutdown then Error else l.outcome
  }

  /** The result branch: the result's own usage replaces the figure, and what has no price is never free. */
  method FinishWithResult(run: Run, l: Loop, subtype: Subtype, byModel: ModelTokens, usage: Option<Tokens>)
    returns (l': Loop)
    ensures l' == AfterResult(run, l, subtype, byModel, usage)
  {
    l' := l.(open := false);
    if subtype.Success? || subtype.MaxTurns? {
      l' := l'.(outcome := Ok);
    } else {
      l' := l'.(outcome := Error);
    }
    if |byModel| > 0 {
      var tokens, cost, unpriced := PriceModels(run.prices, byModel);
      if |unpriced| > 0 {
        l' := l'.(outcome := Error, unpriced := Some(unpriced[0]));
        if Max(cost, run.estimate) > l'.cost {
          l' := Recorded(l', tokens, Max(cost, run.estimate));
        }
      } else {
        l' := Recorded(l', tokens, cost);
      }
    } else if usage.Some? {
      var named := Models(l.slots);
      var cost := if run.model != NONE then CostOf(run, run.model, usage.value) else None;
      if cost.None? && |named| == 1 {
        cost := CostOf(run, named[0], usage.value);
      }
      if cost.Some? {
        l' := Recorded(l', usage.value, cost.value);
      } else {
        l' := l'.(outcome := Error, unpriced := Some(run.model));
        l' := Recorded(l', usage.value, Max(l'.cost, run.estimate));
      }
    }
  }

  /** An assistant message with usage: priced and recorded, and then maybe the run's last. */
  method CountMessage(
      run: Run, l: Loop, id: Option<string>, model: Model, t: Tokens, over: bool, shutdown: bool) returns (l': Loop)
    ensures l' == AfterAssistant(run, l, id, model, t, over, shutdown)
  {
    var slots := SetSlot(l.slots, SlotOf(run, l, id, model, t));
    var used, figure, missing := Provisional(run, slots);
    l' := Recorded(l.(slots := slots, anon := if id.Some? then l.anon else l.anon + 1), used, figure);
    if |missing| > 0 {
      l' := l'.(outcome := Error, unpriced := Some(missing[0]), open := false);
    } else if shutdown {
      l' := l'.(open := false);
    } else {
      l' := l'.(log := l'.log + [Looked(over)]);
      if over {
        l' := l'.(outcome := StoppedBudget, open := false);
      }
    }
  }

  /** The loop itself, message by message until one ends it. */
  method ReadMessages(run: Run, ms: seq<Message>, over: Answers, shutdown: Answers) returns (l: Loop)
    ensures l == After(run, ms, over, shutdown)
  {
    l := Start();
    var i := 0;
    while i < |ms| && l.open
      invariant 0 <= i <= |ms|
      invariant l == After(run, ms[..i], over, shutdown)
      decreases |ms| - i
    {
      assert ms[..i + 1][..i] == ms[..i];
      match ms[i] {
        case Assistant(id, model, usage) =>
          if usage.Some? {
            l := CountMessage(run, l, id, model, usage.value, over(i), shutdown(i));
          }
        case Result(subtype, byModel, usage) =>
          l := FinishWithResult(run, l, subtype, byModel, usage);
        case Other =>
      }
      i := i + 1;
    }
    ClosedStays(run, ms, i, over, shutdown);
  }

  /** The run as it is settled once the loop is over. */
  method RunMessages(run: Run, ms: seq<Message>, over: Answers, shutdown: Answers, down: bool)
    returns (outcome: Outcome, tokens: Tokens, cost: int, log: seq<Step>, unpriced: Option<Model>)
    ensures var l := After(run, ms, over, shutdown);
            && outcome == Settled(l, down) && tokens == l.tokens && cost == l.cost && log == l.log
            && unpriced == if Settled(l, down).Error? then l.unpriced else None
    ensures outcome == Ok <==> !down && EndsWell(run, ms, over, shutdown)
    ensures outcome == StoppedBudget <==> EndsOver(run, ms, over, shutdown)
  {
    var l := ReadMessages(run, ms, over, shutdown);
    OutcomeExactly(run, ms, over, shutdown, down);
    outcome, tokens, cost, log := Settled(l, down), l.tokens, l.cost, l.log;
    unpriced := if outcome.Error? then l.unpriced else None;
  }

  /** Once a message has ended the loop the rest is not read. */
  lemma {:induction false} ClosedStays(run: Run, ms: seq<Message>, i: nat, over: Answers, shutdown: Answers)
    requires i <= |ms| && (i < |ms| ==> !After(run, ms[..i], over, shutdown).open)
    ensures After(run, ms, over, shutdown) == After(run, ms[..i], over, shutdown)
    decreases |ms|
  {
    if i < |ms| {
      var n := |ms| - 1;
      assert ms[..n][..i] == ms[..i];
      ClosedStays(run, ms[..n], i, over, shutdown);
    } else {
      assert ms[..i] == ms;
    }
  }

  // ------------------------------------------------- counted once, and never free

  ghost predicate DistinctKeys(slots: seq<Slot>) {
    forall i, j :: 0 <= i < j < |slots| ==> slots[i].key != slots[j].key
  }

  /** While the loop goes on the figure is that of the slots, each message once, all of them priced. */
  ghost predicate Kept(run: Run, l: Loop) {
    && DistinctKeys(l.slots)
    && (l.open ==>
          && l.tokens == TokensIn(l.slots) && l.cost == PricedSum(run, l.slots) && UnpricedModels(run, l.slots) == []
          && l.unpriced.None? && l.outcome.Error?)
    && (l.unpriced.Some? ==> l.cost >= run.estimate && l.outcome.Error?)
  }

  lemma SetKeepsDistinct(slots: seq<Slot>, s: Slot)
    requires DistinctKeys(slots)
    ensures DistinctKeys(SetSlot(slots, s)) && s in SetSlot(slots, s)
    ensures forall x :: x in slots && x.key != s.key ==> x in SetSlot(slots, s)
    ensures forall x :: x in SetSlot(slots, s) ==> x == s || x in slots
  {
    var i, more := IndexOf(slots, s.key), SetSlot(slots, s);
    if i < |slots| {
      assert more[i] == s;
      forall x | x in slots && x.key != s.key
        ensures x in more
      {
        var j :| 0 <= j < |slots| && slots[j] == x;
        assert more[j] == x;
      }
    } else {
      assert more[|slots|] == s;
    }
  }

  lemma AssistantKeeps(run: Run, l: Loop, id: Option<string>, model: Model, t: Tokens, over: bool, shutdown: bool)
    requires Kept(run, l) && l.open
    ensures Kept(run, AfterAssistant(run, l, id, model, t, over, shutdown))
  {
    SetKeepsDistinct(l.slots, SlotOf(run, l, id, model, t));
  }

  lemma ResultKeeps(run: Run, l: Loop, subtype: Subtype, byModel: ModelTokens, usage: Option<Tokens>)
    requires Kept(run, l) && l.open
    ensures Kept(run, AfterResult(run, l, subtype, byModel, usage))
  {
  }

  lemma MessageKeeps(run: Run, l: Loop, m: Message, over: bool, shutdown: bool)
    requires Kept(run, l) && l.open
    ensures Kept(run, AfterMessage(run, l, m, over, shutdown))
  {
    match m
    case Assistant(id, model, usage) =>
      if usage.Some? {
        AssistantKeeps(run, l, id, model, usage.value, over, shutdown);
      }
    case Result(subtype, byModel, usage) => ResultKeeps(run, l, subtype, byModel, usage);
    case Other =>
  }

  lemma {:induction false} LoopKeeps(run: Run, ms: seq<Message>, over: Answers, shutdown: Answers)
    ensures Kept(run, After(run, ms, over, shutdown))
  {
    if ms != [] {
      var n := |ms| - 1;
      LoopKeeps(run, ms[..n], over, shutdown);
      if After(run, ms[..n], over, shutdown).open {
        MessageKeeps(run, After(run, ms[..n], over, shutdown), ms[n], over(n), shutdown(n));
      }
    }
  }

  /** A run ended by a model with no price is recorded at no less than its estimate, and as an error. */
  lemma UnpricedIsNeverFree(run: Run, ms: seq<Message>, over: Answers, shutdown: Answers, down: bool)
    ensures var l := After(run, ms, over, shutdown);
            l.unpriced.Some? ==> l.cost >= run.estimate && Settled(l, down) == Error
  {
    LoopKeeps(run, ms, over, shutdown);
  }

  lemma {:induction false} IndexIs(slots: seq<Slot>, i: nat)
    requires DistinctKeys(slots) && i < |slots|
    ensures IndexOf(slots, slots[i].key) == i
  {
  }

  /** A message that comes again, as one call's blocks do, changes nothing of the figure while the run goes on. */
  lemma RepeatsCountOnce(run: Run, ms: seq<Message>, over: Answers, shutdown: Answers, m: Message)
    requires After(run, ms, over, shutdown).open && m.Assistant? && m.id.Some? && m.usage.Some?
    requires var l := After(run, ms, over, shutdown);
             SlotOf(run, l, m.id, m.model, m.usage.value) in l.slots
    ensures var l, l' := After(run, ms, over, shutdown), After(run, ms + [m], over, shutdown);
            l'.slots == l.slots && l'.tokens == l.tokens && l'.cost == l.cost && l'.unpriced.None?
  {
    var l := After(run, ms, over, shutdown);
    LoopKeeps(run, ms, over, shutdown);
    var s := SlotOf(run, l, m.id, m.model, m.usage.value);
    var i :| 0 <= i < |l.slots| && l.slots[i] == s;
    IndexIs(l.slots, i);
    assert l.slots[i := s] == l.slots;
    assert (ms + [m])[..|ms|] == ms;
  }

  predicate OfMessage(m: Message, id: string) {
    m.Assistant? && m.id == Some(id) && m.usage.Some?
  }

  /** The slot that message `m` sets. */
  function SlotBy(run: Run, m: Message, id: string): Slot
    requires OfMessage(m, id)
  {
    Slot(Named(id), if m.model != NONE then m.model else run.model, Raised(m.usage.value))
  }

  /** Over a run that goes on, what counts of an id is its last message. */
  lemma {:induction false} LastMessageCounts(
      run: Run, ms: seq<Message>, over: Answers, shutdown: Answers, i: nat, id: string)
    requires i < |ms| && OfMessage(ms[i], id) && After(run, ms, over, shutdown).open
    requires forall j :: i < j < |ms| ==> !OfMessage(ms[j], id)
    ensures SlotBy(run, ms[i], id) in After(run, ms, over, shutdown).slots
  {
    var n := |ms| - 1;
    var s := SlotBy(run, ms[i], id);
    OneMoreSlot(run, ms, over, shutdown, id, s);
    if i < n {
      assert ms[..n][i] == ms[i] && forall j :: i < j < n ==> ms[..n][j] == ms[j];
      LastMessageCounts(run, ms[..n], over, shutdown, i, id);
    }
  }

  lemma OneMoreSlot(run: Run, ms: seq<Message>, over: Answers, shutdown: Answers, id: string, s: Slot)
    requires ms != [] && After(run, ms, over, shutdown).open && s.key == Named(id)
    ensures var n := |ms| - 1;
            var l, l' := After(run, ms[..n], over, shutdown), After(run, ms, over, shutdown);
            && l.open
            && if OfMessage(ms[n], id) then SlotBy(run, ms[n], id) in l'.slots else s in l.slots ==> s in l'.slots
  {
    var n := |ms| - 1;
    var l := After(run, ms[..n], over, shutdown);
    LoopKeeps(run, ms[..n], over, shutdown);
    OneMore(run, ms, over, shutdown);
    LaterKeepsSlots(run, l, ms[n], over(n), shutdown(n), id);
    if OfMessage(ms[n], id) {
      NamedSlot(run, l, ms[n], id);
    }
  }

  lemma OneMore(run: Run, ms: seq<Message>, over: Answers, shutdown: Answers)
    requires ms != [] && After(run, ms, over, shutdown).open
    ensures var n := |ms| - 1;
            var l := After(run, ms[..n], over, shutdown);
            l.open && After(run, ms, over, shutdown) == AfterMessage(run, l, ms[n], over(n), shutdown(n))
  {
  }

  lemma NamedSlot(run: Run, l: Loop, m: Message, id: string)
    requires OfMessage(m, id)
    ensures SlotOf(run, l, m.id, m.model, m.usage.value) == SlotBy(run, m, id)
  {
  }

  /** One more message sets the slot of its own id and leaves the others. */
  lemma LaterKeepsSlots(run: Run, l: Loop, m: Message, over: bool, shutdown: bool, id: string)
    requires Kept(run, l)
    ensures var l' := AfterMessage(run, l, m, over, shutdown);
            if OfMessage(m, id) then SlotOf(run, l, m.id, m.model, m.usage.value) in l'.slots
            else forall s :: s in l.slots && s.key == Named(id) ==> s in l'.slots
  {
    MessageSlots(run, l, m, over, shutdown);
    if m.Assistant? && m.usage.Some? {
      SetKeepsDistinct(l.slots, SlotOf(run, l, m.id, m.model, m.usage.value));
    }
  }

  lemma AssistantSlots(run: Run, l: Loop, id: Option<string>, model: Model, t: Tokens, over: bool, shutdown: bool)
    ensures var l' := AfterAssistant(run, l, id, model, t, over, shutdown);
            && l'.slots == SetSlot(l.slots, SlotOf(run, l, id, model, t))
            && l'.anon == if id.None? then l.anon + 1 else l.anon
  {
  }

  lemma ResultSlots(run: Run, l: Loop, subtype: Subtype, byModel: ModelTokens, usage: Option<Tokens>)
    ensures var l' := AfterResult(run, l, subtype, byModel, usage);
            l'.slots == l.slots && l'.anon == l.anon
  {
  }

  lemma MessageSlots(run: Run, l: Loop, m: Message, over: bool, shutdown: bool)
    ensures AfterMessage(run, l, m, over, shutdown).slots ==
            if m.Assistant? && m.usage.Some? then SetSlot(l.slots, SlotOf(run, l, m.id, m.model, m.usage.value))
            else l.slots
    ensures AfterMessage(run, l, m, over, shutdown).anon ==
            if m.Assistant? && m.usage.Some? && m.id.None? then l.anon + 1 else l.anon
  {
    match m
    case Assistant(id, model, usage) =>
      if usage.Some? {
        AssistantSlots(run, l, id, model, usage.value, over, shutdown);
      }
    case Result(subtype, byModel, usage) => ResultSlots(run, l, subtype, byModel, usage);
    case Other =>
  }

  // ----------------------------------------------------------- how a stream ends a run

  /** A model that a message or the run's configuration names has a price. */
  predicate CanPrice(run: Run, m: Model) {
    run.prices(if m == NONE then run.model else m).Some? || (run.model != NONE && run.prices(run.model).Some?)
  }

  /** The messages that end the loop, by what they say and what the pool and the signal answer to them. */
  predicate Ends(run: Run, m: Message, over: bool, shutdown: bool) {
    m.Result? || (m.Assistant? && m.usage.Some? && (!CanPrice(run, m.model) || shutdown || over))
  }

  /** Message `i` is the one that ends the loop. */
  ghost predicate EndsAt(run: Run, ms: seq<Message>, over: Answers, shutdown: Answers, i: nat) {
    && i < |ms| && Ends(run, ms[i], over(i), shutdown(i))
    && forall j: nat :: j < i ==> !Ends(run, ms[j], over(j), shutdown(j))
  }

  /** Message `j` is the last of its id among the first `i`, and has usage. */
  ghost predicate Counts(ms: seq<Message>, i: nat, j: nat) {
    && j < i <= |ms| && ms[j].Assistant? && ms[j].usage.Some?
    && (ms[j].id.Some? ==> forall k :: j < k < i ==> !OfMessage(ms[k], ms[j].id.value))
  }

  function NamedBy(run: Run, m: Message): Model
    requires m.Assistant?
  {
    if m.model == NONE then run.model else m.model
  }

  /** One model, with a price, is named by every message that counts and names one. */
  ghost predicate OneNamed(run: Run, ms: seq<Message>, i: nat, m: Model) {
    && run.prices(m).Some? && m != NONE
    && (exists j: nat :: Counts(ms, i, j) && NamedBy(run, ms[j]) == m)
    && forall j: nat :: Counts(ms, i, j) ==> NamedBy(run, ms[j]) == m || NamedBy(run, ms[j]) == NONE
  }

  /**
   * The usage of a result after `ms` has a price, if it has any: by its models, by the run's, or by the
   * one model named before it.
   */
  ghost predicate UsagePriced(run: Run, ms: seq<Message>, r: Message)
    requires r.Result?
  {
    if r.byModel != [] then forall k :: 0 <= k < |r.byModel| ==> run.prices(r.byModel[k].model).Some?
    else
      || r.usage.None?
      || (run.model != NONE && run.prices(run.model).Some?)
      || exists m :: OneNamed(run, ms, |ms|, m)
  }

  /** A message as it is counted: under its own model or the run's, its output taken at 1024 at least. */
  ghost predicate SlotFor(run: Run, m: Message, s: Slot)
    requires m.Assistant? && m.usage.Some?
  {
    && (match m.id case Some(id) => s.key == Named(id) case None => s.key.Anon?)
    && s.model == NamedBy(run, m)
    && s.tokens == m.usage.value.(output := if m.usage.value.output > 1024 then m.usage.value.output else 1024)
  }

  /** The slots are those of messages `at`, one each, which are all that count. */
  ghost predicate SlotsFrom(run: Run, ms: seq<Message>, l: Loop, at: seq<nat>) {
    && |at| == |l.slots|
    && (forall q :: 0 <= q < |at| ==> Counts(ms, |ms|, at[q]) && SlotFor(run, ms[at[q]], l.slots[q]))
    && (forall j: nat :: Counts(ms, |ms|, j) ==> j in at)
    && forall q :: 0 <= q < |at| && l.slots[q].key.Anon? ==> l.slots[q].key.n < l.anon
  }

  lemma CountsStill(ms: seq<Message>, m: Message, j: nat)
    requires j < |ms|
    ensures Counts(ms + [m], |ms| + 1, j) <==>
            Counts(ms, |ms|, j) && !(ms[j].id.Some? && OfMessage(m, ms[j].id.value))
  {
    var more := ms + [m];
    assert forall k :: 0 <= k < |ms| ==> more[k] == ms[k];
    assert more[|ms|] == m;
  }

  lemma CountsLast(ms: seq<Message>, m: Message)
    ensures Counts(ms + [m], |ms| + 1, |ms|) <==> m.Assistant? && m.usage.Some?
  {
    assert (ms + [m])[|ms|] == m;
  }

  lemma OtherMessageSlots(run: Run, ms: seq<Message>, m: Message, l: Loop, at: seq<nat>)
    requires SlotsFrom(run, ms, l, at) && !(m.Assistant? && m.usage.Some?)
    ensures SlotsFrom(run, ms + [m], l, at)
  {
    CountsLast(ms, m);
    forall j: nat | j < |ms|
      ensures Counts(ms + [m], |ms| + 1, j) <==> Counts(ms, |ms|, j)
    {
      CountsStill(ms, m, j);
    }
  }

  lemma NewSlotFor(run: Run, l: Loop, m: Message)
    requires m.Assistant? && m.usage.Some?
    ensures SlotFor(run, m, SlotOf(run, l, m.id, m.model, m.usage.value))
  {
  }

  /** Message `n` in the place of slot `i`, or in a new one. */
  function PutAt(at: seq<nat>, i: nat, n: nat): seq<nat> {
    if i < |at| then at[i := n] else at + [n]
  }

  /** A message still counts unless it is in the slot that the next one takes. */
  lemma OthersStillCount(run: Run, ms: seq<Message>, m: Message, l: Loop, at: seq<nat>, i: nat, q: nat)
    requires SlotsFrom(run, ms, l, at) && DistinctKeys(l.slots) && m.Assistant? && m.usage.Some?
    requires i == IndexOf(l.slots, SlotOf(run, l, m.id, m.model, m.usage.value).key) && q < |at|
    ensures Counts(ms + [m], |ms| + 1, at[q]) <==> q != i
    ensures m.id.None? ==> i == |at|
  {
    CountsStill(ms, m, at[q]);
    assert q != i && i < |at| ==> l.slots[q].key != l.slots[i].key;
  }

  lemma UsedMessagesCount(run: Run, ms: seq<Message>, m: Message, l: Loop, at: seq<nat>, i: nat)
    requires SlotsFrom(run, ms, l, at) && DistinctKeys(l.slots) && m.Assistant? && m.usage.Some?
    requires i == IndexOf(l.slots, SlotOf(run, l, m.id, m.model, m.usage.value).key)
    ensures forall j: nat :: Counts(ms + [m], |ms| + 1, j) ==> j in PutAt(at, i, |ms|)
  {
    var at' := PutAt(at, i, |ms|);
    forall j: nat | Counts(ms + [m], |ms| + 1, j)
      ensures j in at'
    {
      if j < |ms| {
        CountsStill(ms, m, j);
        var q :| 0 <= q < |at| && at[q] == j;
        OthersStillCount(run, ms, m, l, at, i, q);
        assert at'[q] == j;
      } else {
        assert at'[if i < |at| then i else |at|] == |ms|;
      }
    }
  }

  /** A message with usage takes the place of the one with its id, or a new one. */
  lemma UsedMessageSlots(run: Run, ms: seq<Message>, m: Message, l: Loop, at: seq<nat>) returns (at': seq<nat>)
    requires SlotsFrom(run, ms, l, at) && DistinctKeys(l.slots) && m.Assistant? && m.usage.Some?
    ensures var slots := SetSlot(l.slots, SlotOf(run, l, m.id, m.model, m.usage.value));
            SlotsFrom(run, ms + [m], l.(slots := slots, anon := if m.id.Some? then l.anon else l.anon + 1), at')
  {
    var more, s := ms + [m], SlotOf(run, l, m.id, m.model, m.usage.value);
    var i := IndexOf(l.slots, s.key);
    at' := PutAt(at, i, |ms|);
    NewSlotFor(run, l, m);
    CountsLast(ms, m);
    UsedMessagesCount(run, ms, m, l, at, i);
    var slots := SetSlot(l.slots, s);
    forall q | 0 <= q < |at'|
      ensures Counts(more, |more|, at'[q]) && SlotFor(run, more[at'[q]], slots[q])
    {
      if q < |at| && q != i {
        OthersStillCount(run, ms, m, l, at, i, q);
        assert more[at[q]] == ms[at[q]];
      } else {
        assert at'[q] == |ms| && more[|ms|] == m;
      }
    }
  }

  lemma OneMoreMessage(run: Run, ms: seq<Message>, m: Message, l: Loop, at: seq<nat>, over: bool, shutdown: bool)
    returns (at': seq<nat>)
    requires SlotsFrom(run, ms, l, at) && DistinctKeys(l.slots)
    ensures SlotsFrom(run, ms + [m], AfterMessage(run, l, m, over, shutdown), at')
  {
    MessageSlots(run, l, m, over, shutdown);
    if m.Assistant? && m.usage.Some? {
      at' := UsedMessageSlots(run, ms, m, l, at);
      SlotsOnly(run, ms + [m], l.(slots := SetSlot(l.slots, SlotOf(run, l, m.id, m.model, m.usage.value)),
                                  anon := if m.id.Some? then l.anon else l.anon + 1),
                AfterMessage(run, l, m, over, shutdown), at');
    } else {
      at' := at;
      OtherMessageSlots(run, ms, m, l, at);
      SlotsOnly(run, ms + [m], l, AfterMessage(run, l, m, over, shutdown), at);
    }
  }

  lemma SlotsOnly(run: Run, ms: seq<Message>, l: Loop, l': Loop, at: seq<nat>)
    requires SlotsFrom(run, ms, l, at) && l'.slots == l.slots && l'.anon == l.anon
    ensures SlotsFrom(run, ms, l', at)
  {
  }

  /** Whatever came, the slots are the last messages of their ids, and those without an id. */
  lemma {:induction false} SlotsAreTheLastMessages(run: Run, ms: seq<Message>, over: Answers, shutdown: Answers)
    returns (at: seq<nat>)
    requires ms != [] ==> After(run, ms[..|ms| - 1], over, shutdown).open
    ensures SlotsFrom(run, ms, After(run, ms, over, shutdown), at)
  {
    at := [];
    if ms != [] {
      var n := |ms| - 1;
      var l := After(run, ms[..n], over, shutdown);
      if n > 0 {
        assert ms[..n][..n - 1] == ms[..n - 1];
        StillOpen(run, ms[..n], over, shutdown);
      }
      at := SlotsAreTheLastMessages(run, ms[..n], over, shutdown);
      LoopKeeps(run, ms[..n], over, shutdown);
      assert ms == ms[..n] + [ms[n]];
      at := OneMoreMessage(run, ms[..n], ms[n], l, at, over(n), shutdown(n));
    }
  }

  lemma StillOpen(run: Run, ms: seq<Message>, over: Answers, shutdown: Answers)
    requires ms != [] && After(run, ms, over, shutdown).open
    ensures After(run, ms[..|ms| - 1], over, shutdown).open
  {
  }

  lemma {:induction false} NoneUnpriced(run: Run, slots: seq<Slot>)
    ensures UnpricedModels(run, slots) == [] <==> forall q :: 0 <= q < |slots| ==> SlotCost(run, slots[q]).Some?
  {
    if slots != [] {
      NoneUnpriced(run, slots[..|slots| - 1]);
    }
  }

  lemma {:induction false} OneUnpriced(run: Run, slots: seq<Slot>, q: nat)
    requires q < |slots| && SlotCost(run, slots[q]).None?
    requires forall j :: 0 <= j < |slots| && j != q ==> SlotCost(run, slots[j]).Some?
    ensures UnpricedModels(run, slots) == [slots[q].model]
  {
    var n := |slots| - 1;
    if q < n {
      OneUnpriced(run, slots[..n], q);
    } else {
      NoneUnpriced(run, slots[..n]);
    }
  }

  lemma SetSlotAt(slots: seq<Slot>, s: Slot)
    ensures var i, more := IndexOf(slots, s.key), SetSlot(slots, s);
            && i < |more| && more[i] == s && |slots| <= |more| <= |slots| + 1
            && forall j :: 0 <= j < |more| && j != i ==> j < |slots| && more[j] == slots[j]
  {
  }

  lemma SlotPriced(run: Run, l: Loop, m: Message)
    requires m.Assistant? && m.usage.Some?
    ensures var s := SlotOf(run, l, m.id, m.model, m.usage.value);
            s.model == NamedBy(run, m) && (SlotCost(run, s).Some? <==> CanPrice(run, m.model))
  {
  }

  /** While the loop goes on everything before is priced, so only the new message can lack a price. */
  lemma NewMessagePriced(run: Run, l: Loop, m: Message)
    requires Kept(run, l) && l.open && m.Assistant? && m.usage.Some?
    ensures UnpricedModels(run, SetSlot(l.slots, SlotOf(run, l, m.id, m.model, m.usage.value))) ==
            if CanPrice(run, m.model) then [] else [NamedBy(run, m)]
  {
    var s := SlotOf(run, l, m.id, m.model, m.usage.value);
    SlotPriced(run, l, m);
    NoneUnpriced(run, l.slots);
    NoneUnpriced(run, SetSlot(l.slots, s));
    SetSlotAt(l.slots, s);
    if SlotCost(run, s).None? {
      OneUnpriced(run, SetSlot(l.slots, s), IndexOf(l.slots, s.key));
    }
  }

  lemma MessageEnds(run: Run, l: Loop, m: Message, over: bool, shutdown: bool)
    requires Kept(run, l) && l.open
    ensures AfterMessage(run, l, m, over, shutdown).open <==> !Ends(run, m, over, shutdown)
  {
    if m.Assistant? && m.usage.Some? {
      NewMessagePriced(run, l, m);
    }
  }

  lemma {:induction false} OpenExactly(run: Run, ms: seq<Message>, over: Answers, shutdown: Answers)
    ensures After(run, ms, over, shutdown).open <==>
            forall j: nat :: j < |ms| ==> !Ends(run, ms[j], over(j), shutdown(j))
  {
    if ms != [] {
      var n: nat := |ms| - 1;
      OpenExactly(run, ms[..n], over, shutdown);
      LoopKeeps(run, ms[..n], over, shutdown);
      assert forall j: nat :: j < n ==> ms[..n][j] == ms[j];
      if After(run, ms[..n], over, shutdown).open {
        MessageEnds(run, After(run, ms[..n], over, shutdown), ms[n], over(n), shutdown(n));
      }
    }
  }

  /** What a stream leaves is what the message that ends it makes of the loop before. */
  lemma EndIs(run: Run, ms: seq<Message>, over: Answers, shutdown: Answers, i: nat)
    requires EndsAt(run, ms, over, shutdown, i)
    ensures var l := After(run, ms[..i], over, shutdown);
            && l.open && Kept(run, l)
            && After(run, ms, over, shutdown) == AfterMessage(run, l, ms[i], over(i), shutdown(i))
  {
    OpenExactly(run, ms[..i], over, shutdown);
    LoopKeeps(run, ms[..i], over, shutdown);
    assert forall j: nat :: j < i ==> ms[..i][j] == ms[j];
    var upTo := ms[..i + 1];
    assert upTo[..i] == ms[..i];
    MessageEnds(run, After(run, ms[..i], over, shutdown), ms[i], over(i), shutdown(i));
    ClosedStays(run, ms, i + 1, over, shutdown);
  }

  lemma {:induction false} ModelsAre(slots: seq<Slot>)
    ensures forall j, k :: 0 <= j < k < |Models(slots)| ==> Models(slots)[j] != Models(slots)[k]
    ensures forall m :: m in Models(slots) <==> m != NONE && exists q :: 0 <= q < |slots| && slots[q].model == m
  {
    if slots != [] {
      var n := |slots| - 1;
      ModelsAre(slots[..n]);
      forall m
        ensures m in Models(slots) <==> m != NONE && exists q :: 0 <= q < |slots| && slots[q].model == m
      {
        if m in Models(slots[..n]) {
          var q :| 0 <= q < n && slots[..n][q].model == m;
          assert slots[q].model == m;
        } else if exists q :: 0 <= q < |slots| && slots[q].model == m {
          var q :| 0 <= q < |slots| && slots[q].model == m;
          assert q < n ==> slots[..n][q].model == m;
        }
      }
    }
  }

  /** Every slot that names a model names this one. */
  ghost predicate AllName(slots: seq<Slot>, m: Model) {
    && m != NONE && (exists q :: 0 <= q < |slots| && slots[q].model == m)
    && forall q :: 0 <= q < |slots| ==> slots[q].model == m || slots[q].model == NONE
  }

  lemma OneModelIsNamed(slots: seq<Slot>, m: Model)
    requires Models(slots) == [m]
    ensures AllName(slots, m)
  {
    ModelsAre(slots);
    assert m in Models(slots);
    forall q | 0 <= q < |slots| && slots[q].model != NONE
      ensures slots[q].model == m
    {
      assert slots[q].model in Models(slots);
    }
  }

  lemma NamedIsOneModel(slots: seq<Slot>, m: Model)
    requires AllName(slots, m)
    ensures Models(slots) == [m]
  {
    ModelsAre(slots);
    var ms := Models(slots);
    assert |ms| > 1 ==> ms[0] != ms[1];
    assert m in ms;
    assert forall k :: 0 <= k < |ms| ==> ms[k] in ms;
    assert forall k :: 0 <= k < |ms| ==> ms[k] == m;
  }

  /** In terms of messages: the slots name one model exactly when the messages that count do. */
  lemma NamedByMessages(run: Run, ms: seq<Message>, l: Loop, at: seq<nat>, m: Model)
    requires SlotsFrom(run, ms, l, at)
    ensures OneNamed(run, ms, |ms|, m) <==> run.prices(m).Some? && AllName(l.slots, m)
  {
    if OneNamed(run, ms, |ms|, m) {
      var j: nat :| Counts(ms, |ms|, j) && NamedBy(run, ms[j]) == m;
      var q :| 0 <= q < |at| && at[q] == j;
      assert l.slots[q].model == m;
    }
    if AllName(l.slots, m) {
      var q :| 0 <= q < |l.slots| && l.slots[q].model == m;
      assert Counts(ms, |ms|, at[q]) && NamedBy(run, ms[at[q]]) == m;
      forall j: nat | Counts(ms, |ms|, j)
        ensures NamedBy(run, ms[j]) == m || NamedBy(run, ms[j]) == NONE
      {
        var r :| 0 <= r < |at| && at[r] == j;
        assert l.slots[r].model == NamedBy(run, ms[j]);
      }
    }
  }

  lemma BareUsagePriced(run: Run, ms: seq<Message>, l: Loop, at: seq<nat>, t: Tokens)
    requires SlotsFrom(run, ms, l, at)
    ensures UsageCost(run, l.slots, t).Some? <==>
            (run.model != NONE && run.prices(run.model).Some?) || exists m :: OneNamed(run, ms, |ms|, m)
  {
    forall m
      ensures OneNamed(run, ms, |ms|, m) <==> run.prices(m).Some? && AllName(l.slots, m)
    {
      NamedByMessages(run, ms, l, at, m);
    }
    if |Models(l.slots)| == 1 {
      OneModelIsNamed(l.slots, Models(l.slots)[0]);
      assert run.prices(Models(l.slots)[0]).Some? ==> OneNamed(run, ms, |ms|, Models(l.slots)[0]);
    }
    if exists m :: OneNamed(run, ms, |ms|, m) {
      var m :| OneNamed(run, ms, |ms|, m);
      NamedIsOneModel(l.slots, m);
    }
  }

  /** The outcome that a result gives. */
  lemma ResultOutcome(run: Run, ms: seq<Message>, l: Loop, at: seq<nat>, r: Message)
    requires SlotsFrom(run, ms, l, at) && r.Result?
    ensures AfterResult(run, l, r.subtype, r.byModel, r.usage).outcome ==
            if (r.subtype.Success? || r.subtype.MaxTurns?) && UsagePriced(run, ms, r) then Ok else Error
  {
    TurnUsage.NoneUnpriced(run.prices, r.byModel);
    if r.byModel == [] && r.usage.Some? {
      BareUsagePriced(run, ms, l, at, r.usage.value);
    }
  }

  /** The stream is ended by a successful or capped result whose usage has a price. */
  ghost predicate EndsWell(run: Run, ms: seq<Message>, over: Answers, shutdown: Answers) {
    exists i: nat :: && EndsAt(run, ms, over, shutdown, i) && ms[i].Result?
                     && (ms[i].subtype.Success? || ms[i].subtype.MaxTurns?) && UsagePriced(run, ms[..i], ms[i])
  }

  /** It is ended by a priced message that found the pool over its limit. */
  ghost predicate EndsOver(run: Run, ms: seq<Message>, over: Answers, shutdown: Answers) {
    exists i: nat :: && EndsAt(run, ms, over, shutdown, i) && ms[i].Assistant?
                     && CanPrice(run, ms[i].model) && !shutdown(i) && over(i)
  }

  lemma OneEnd(run: Run, ms: seq<Message>, over: Answers, shutdown: Answers, i: nat, j: nat)
    requires EndsAt(run, ms, over, shutdown, i) && EndsAt(run, ms, over, shutdown, j)
    ensures i == j
  {
    assert Ends(run, ms[i], over(i), shutdown(i)) && Ends(run, ms[j], over(j), shutdown(j));
  }

  lemma OutcomeAt(run: Run, ms: seq<Message>, over: Answers, shutdown: Answers, i: nat)
    requires EndsAt(run, ms, over, shutdown, i)
    ensures var o := After(run, ms, over, shutdown).outcome;
            if ms[i].Result? then
              o == if (ms[i].subtype.Success? || ms[i].subtype.MaxTurns?) && UsagePriced(run, ms[..i], ms[i])
                   then Ok else Error
            else o == if CanPrice(run, ms[i].model) && !shutdown(i) && over(i) then StoppedBudget else Error
  {
    EndIs(run, ms, over, shutdown, i);
    var l := After(run, ms[..i], over, shutdown);
    if ms[i].Result? {
      if i > 0 {
        StillOpen(run, ms[..i], over, shutdown);
      }
      var at := SlotsAreTheLastMessages(run, ms[..i], over, shutdown);
      ResultOutcome(run, ms[..i], l, at, ms[i]);
    } else {
      NewMessagePriced(run, l, ms[i]);
    }
  }

  /** Of the messages that would end the loop the first does. */
  lemma {:induction false} FirstEnd(run: Run, ms: seq<Message>, over: Answers, shutdown: Answers, n: nat)
    returns (i: nat)
    requires n <= |ms| && exists j: nat :: j < n && Ends(run, ms[j], over(j), shutdown(j))
    ensures EndsAt(run, ms, over, shutdown, i)
  {
    if exists j: nat :: j < n - 1 && Ends(run, ms[j], over(j), shutdown(j)) {
      i := FirstEnd(run, ms, over, shutdown, n - 1);
    } else {
      i := n - 1;
    }
  }

  /**
   * A run is ok exactly when nothing shut it down and its stream was ended by a successful or capped
   * result whose usage has a price, stopped for its budget exactly when it was ended by a priced message
   * that found the pool over its limit, and an error otherwise.
   */
  lemma OutcomeExactly(run: Run, ms: seq<Message>, over: Answers, shutdown: Answers, down: bool)
    ensures var o := Settled(After(run, ms, over, shutdown), down);
            && (o == Ok <==> !down && EndsWell(run, ms, over, shutdown))
            && (o == StoppedBudget <==> EndsOver(run, ms, over, shutdown))
  {
    if After(run, ms, over, shutdown).open {
      LoopKeeps(run, ms, over, shutdown);
      OpenExactly(run, ms, over, shutdown);
    } else {
      OpenExactly(run, ms, over, shutdown);
      var i := FirstEnd(run, ms, over, shutdown, |ms|);
      OutcomeAt(run, ms, over, shutdown, i);
      forall j: nat | EndsAt(run, ms, over, shutdown, j)
        ensures j == i
      {
        OneEnd(run, ms, over, shutdown, i, j);
      }
    }
  }

  // ------------------------------------------------------------ what a run has cost

  /** What a slot is charged: its own model's prices, else the run's, else nothing. */
  function Rate(run: Run, m: Model): Option<Tokens> {
    if run.prices(m).Some? then run.prices(m) else if run.model != NONE then run.prices(run.model) else None
  }

  /** The figure, slot by slot: tokens of each kind, and each kind at its own price. */
  ghost predicate Figured(run: Run, slots: seq<Slot>, totals: seq<Tokens>, sums: seq<int>) {
    && |totals| == |sums| == |slots| + 1 && totals[0] == Tokens(0, 0, 0, 0) && sums[0] == 0
    && forall q :: 0 <= q < |slots| ==>
         var t, sum := slots[q].tokens, totals[q];
         && totals[q + 1] == Tokens(sum.input + t.input, sum.output + t.output,
                                    sum.cacheRead + t.cacheRead, sum.cacheWrite + t.cacheWrite)
         && sums[q + 1] == sums[q] +
            match Rate(run, slots[q].model)
            case None => 0
            case Some(p) =>
              t.input * p.input + t.output * p.output + t.cacheRead * p.cacheRead + t.cacheWrite * p.cacheWrite
  }

  lemma RateCosts(run: Run, s: Slot)
    ensures var t := s.tokens;
            (if SlotCost(run, s).Some? then SlotCost(run, s).value else 0) ==
            match Rate(run, s.model)
            case None => 0
            case Some(p) =>
              t.input * p.input + t.output * p.output + t.cacheRead * p.cacheRead + t.cacheWrite * p.cacheWrite
  {
    CostIs(run, s.model, s.tokens);
    CostIs(run, run.model, s.tokens);
  }

  lemma OneMoreFigured(run: Run, slots: seq<Slot>, s: Slot, totals: seq<Tokens>, sums: seq<int>)
    requires Figured(run, slots, totals, sums)
    ensures Figured(run, slots + [s], totals + [Add(totals[|slots|], s.tokens)],
                    sums + [sums[|slots|] + if SlotCost(run, s).Some? then SlotCost(run, s).value else 0])
  {
    RateCosts(run, s);
  }

  lemma {:induction false} SlotsFigured(run: Run, slots: seq<Slot>) returns (totals: seq<Tokens>, sums: seq<int>)
    ensures Figured(run, slots, totals, sums)
    ensures totals[|slots|] == TokensIn(slots) && sums[|slots|] == PricedSum(run, slots)
  {
    if slots == [] {
      totals, sums := [Tokens(0, 0, 0, 0)], [0];
    } else {
      var n := |slots| - 1;
      totals, sums := SlotsFigured(run, slots[..n]);
      OneMoreFigured(run, slots[..n], slots[n], totals, sums);
      assert slots == slots[..n] + [slots[n]];
      totals, sums := totals + [TokensIn(slots)], sums + [PricedSum(run, slots)];
    }
  }

  /**
   * Until a result comes the run has used and cost what the last message of each id did, and those
   * without an id; one that lacks a price ends it at the estimate at least.
   */
  lemma FigureIsOfTheLastMessages(run: Run, ms: seq<Message>, over: Answers, shutdown: Answers)
    returns (at: seq<nat>, totals: seq<Tokens>, sums: seq<int>)
    requires After(run, ms, over, shutdown).open || EndsAt(run, ms, over, shutdown, |ms| - 1)
    requires ms != [] ==> !ms[|ms| - 1].Result?
    ensures var l := After(run, ms, over, shutdown);
            && SlotsFrom(run, ms, l, at) && Figured(run, l.slots, totals, sums)
            && l.tokens == totals[|l.slots|]
            && if l.open || CanPrice(run, ms[|ms| - 1].model) then l.cost == sums[|l.slots|] && l.unpriced == None
               else && l.cost == (if sums[|l.slots|] > run.estimate then sums[|l.slots|] else run.estimate)
                    && l.unpriced == Some(NamedBy(run, ms[|ms| - 1]))
  {
    var l := After(run, ms, over, shutdown);
    if l.open {
      if ms != [] {
        StillOpen(run, ms, over, shutdown);
      }
      LoopKeeps(run, ms, over, shutdown);
    } else {
      var n: nat := |ms| - 1;
      EndIs(run, ms, over, shutdown, n);
      NewMessagePriced(run, After(run, ms[..n], over, shutdown), ms[n]);
    }
    at := SlotsAreTheLastMessages(run, ms, over, shutdown);
    totals, sums := SlotsFigured(run, l.slots);
  }

  /**
   * A result's own usage replaces the figure when it has a price. What has none never costs less than
   * the estimate, nor than before, and the first model that lacks a price is named.
   */
  lemma ResultFigure(run: Run, ms: seq<Message>, over: Answers, shutdown: Answers, i: nat)
    returns (sums: seq<int>, none: seq<nat>)
    requires EndsAt(run, ms, over, shutdown, i) && ms[i].Result?
    ensures var l, l', r := After(run, ms[..i], over, shutdown), After(run, ms, over, shutdown), ms[i];
            if r.byModel != [] then
              && Billed(run.prices, r.byModel, sums)
              && var c := sums[|r.byModel|];
                 if UsagePriced(run, ms[..i], r) then
                   l'.cost == c && SumsTo(r.byModel, l'.tokens) && l'.unpriced == None
                 else
                   && l'.unpriced.Some? && UnpricedAt(run.prices, r.byModel, Unpriced(run.prices, r.byModel), none)
                   && none != [] && l'.unpriced.value == r.byModel[none[0]].model
                   && (if c > l.cost || run.estimate > l.cost
                       then l'.cost == (if c > run.estimate then c else run.estimate) && SumsTo(r.byModel, l'.tokens)
                       else l'.cost == l.cost && l'.tokens == l.tokens)
            else if r.usage == None then l'.cost == l.cost && l'.tokens == l.tokens && l'.unpriced == None
            else
              && l'.tokens == r.usage.value
              && if run.model != NONE && run.prices(run.model).Some? then
                   CostOf(run, run.model, r.usage.value) == Some(l'.cost) && l'.unpriced == None
                 else if exists m :: OneNamed(run, ms[..i], i, m) then
                   l'.unpriced == None
                   && forall m :: OneNamed(run, ms[..i], i, m) ==> CostOf(run, m, r.usage.value) == Some(l'.cost)
                 else && l'.unpriced == Some(run.model)
                      && l'.cost == if l.cost > run.estimate then l.cost else run.estimate
  {
    var l, r := After(run, ms[..i], over, shutdown), ms[i];
    EndIs(run, ms, over, shutdown, i);
    sums := TotalIsBilled(run.prices, r.byModel);
    none := UnpricedInOrder(run.prices, r.byModel);
    TokensOfSums(r.byModel);
    TurnUsage.NoneUnpriced(run.prices, r.byModel);
    if r.byModel == [] && r.usage.Some? {
      if i > 0 {
        StillOpen(run, ms[..i], over, shutdown);
      }
      var at := SlotsAreTheLastMessages(run, ms[..i], over, shutdown);
      BareUsagePriced(run, ms[..i], l, at, r.usage.value);
      forall m | OneNamed(run, ms[..i], i, m)
        ensures Models(l.slots) == [m]
      {
        NamedByMessages(run, ms[..i], l, at, m);
        NamedIsOneModel(l.slots, m);
      }
    }
  }

  // ---------------------------------------------------- the steps of the budget protocol

  /** Where the steps of the protocol leave a run: free to record, having recorded, or told to stop. */
  datatype Turn = Free | MustLook | MustStop | Broken

  /** A record may follow only a look that found the pool within its limit, and nothing a look that did not. */
  function TurnAfter(log: seq<Step>): Turn {
    if log == [] then Free
    else
      match (TurnAfter(log[..|log| - 1]), log[|log| - 1])
      case (Free, Wrote(_, _)) => MustLook
      case (MustLook, Looked(over)) => if over then MustStop else Free
      case _ => Broken
  }

  lemma TurnSteps(log: seq<Step>, s: Step)
    ensures TurnAfter(log + [s]) ==
            match (TurnAfter(log), s)
            case (Free, Wrote(_, _)) => MustLook
            case (MustLook, Looked(over)) => if over then MustStop else Free
            case _ => Broken
  {
    assert (log + [s])[..|log|] == log;
  }

  /** Where a message leaves an open run of the protocol. */
  ghost predicate Follows(l: Loop) {
    && !TurnAfter(l.log).Broken?
    && (l.open ==> TurnAfter(l.log) == Free && l.outcome == Error)
    && (TurnAfter(l.log) == MustStop <==> l.outcome == StoppedBudget)
  }

  lemma AssistantFollows(run: Run, l: Loop, id: Option<string>, model: Model, t: Tokens, over: bool, shutdown: bool)
    requires l.open && TurnAfter(l.log) == Free && l.outcome == Error
    ensures Follows(AfterAssistant(run, l, id, model, t, over, shutdown))
  {
    var l' := AfterAssistant(run, l, id, model, t, over, shutdown);
    var w := Wrote(l'.tokens, l'.cost);
    TurnSteps(l.log, w);
    TurnSteps(l.log + [w], Looked(over));
  }

  lemma ResultLog(run: Run, l: Loop, subtype: Subtype, byModel: ModelTokens, usage: Option<Tokens>)
    ensures var l' := AfterResult(run, l, subtype, byModel, usage);
            && !l'.open && !l'.outcome.StoppedBudget?
            && (l'.log == l.log || l'.log == l.log + [Wrote(l'.tokens, l'.cost)])
  {
  }

  lemma ResultFollows(run: Run, l: Loop, subtype: Subtype, byModel: ModelTokens, usage: Option<Tokens>)
    requires l.open && TurnAfter(l.log) == Free && l.outcome == Error
    ensures Follows(AfterResult(run, l, subtype, byModel, usage))
  {
    ResultLog(run, l, subtype, byModel, usage);
    var l' := AfterResult(run, l, subtype, byModel, usage);
    TurnSteps(l.log, Wrote(l'.tokens, l'.cost));
  }

  lemma MessageFollows(run: Run, l: Loop, m: Message, over: bool, shutdown: bool)
    requires l.open && TurnAfter(l.log) == Free && l.outcome == Error
    ensures Follows(AfterMessage(run, l, m, over, shutdown))
  {
    match m
    case Assistant(id, model, usage) =>
      if usage.Some? {
        AssistantFollows(run, l, id, model, usage.value, over, shutdown);
      }
    case Result(subtype, byModel, usage) => ResultFollows(run, l, subtype, byModel, usage);
    case Other =>
  }

  /**
   * Over every stream of messages a run records, looks and stops as the budget protocol has it: no
   * record without a look since the last one, none after a look that found the pool over its limit;
   * and it is stopped for the budget exactly when its last look found that.
   */
  lemma {:induction false} LoopFollowsTheProtocol(run: Run, ms: seq<Message>, over: Answers, shutdown: Answers)
    ensures Follows(After(run, ms, over, shutdown))
  {
    if ms != [] {
      var n := |ms| - 1;
      LoopFollowsTheProtocol(run, ms[..n], over, shutdown);
      if After(run, ms[..n], over, shutdown).open {
        MessageFollows(run, After(run, ms[..n], over, shutdown), ms[n], over(n), shutdown(n));
      }
    }
  }

  /** The figure is the last one written: nothing was written after it. */
  ghost predicate LastWritten(log: seq<Step>, tokens: Tokens, cost: int) {
    if exists i :: 0 <= i < |log| && log[i].Wrote? then
      exists i :: 0 <= i < |log| && log[i] == Wrote(tokens, cost) && forall j :: i < j < |log| ==> log[j].Looked?
    else tokens == Tokens(0, 0, 0, 0) && cost == 0
  }

  lemma WritesLast(log: seq<Step>, tokens: Tokens, cost: int, over: bool)
    ensures LastWritten(log + [Wrote(tokens, cost)], tokens, cost)
    ensures LastWritten(log + [Wrote(tokens, cost), Looked(over)], tokens, cost)
  {
    var once, looked := log + [Wrote(tokens, cost)], log + [Wrote(tokens, cost), Looked(over)];
    assert once[|log|] == Wrote(tokens, cost) && looked[|log|] == Wrote(tokens, cost);
  }

  lemma MessageWrites(run: Run, l: Loop, m: Message, over: bool, shutdown: bool)
    requires LastWritten(l.log, l.tokens, l.cost)
    ensures var l' := AfterMessage(run, l, m, over, shutdown);
            LastWritten(l'.log, l'.tokens, l'.cost)
  {
    var l' := AfterMessage(run, l, m, over, shutdown);
    WritesLast(l.log, l'.tokens, l'.cost, over);
    assert l.log + [Wrote(l'.tokens, l'.cost), Looked(over)] == (l.log + [Wrote(l'.tokens, l'.cost)]) + [Looked(over)];
  }

  /** Over every stream the row's last write is the figure the run ends with. */
  lemma {:induction false} FigureIsTheLastWrite(run: Run, ms: seq<Message>, over: Answers, shutdown: Answers)
    ensures var l := After(run, ms, over, shutdown);
            LastWritten(l.log, l.tokens, l.cost)
  {
    if ms != [] {
      var n := |ms| - 1;
      FigureIsTheLastWrite(run, ms[..n], over, shutdown);
      MessageWrites(run, After(run, ms[..n], over, shutdown), ms[n], over(n), shutdown(n));
    }
  }

  /** A result that names its models, all priced, replaces whatever was provisional by the price of its usage. */
  lemma ResultReplacesTheFigure(run: Run, ms: seq<Message>, over: Answers, shutdown: Answers, i: nat)
    requires i < |ms| && ms[i].Result? && ms[i].byModel != [] && Unpriced(run.prices, ms[i].byModel) == []
    requires After(run, ms[..i], over, shutdown).open
    ensures var l := After(run, ms, over, shutdown);
            && l.tokens == TokensOf(ms[i].byModel) && l.cost == Total(ms[i].byModel, PriceWeights(run.prices))
            && l.unpriced.None?
  {
    LoopKeeps(run, ms[..i], over, shutdown);
    assert ms[..i + 1][..i] == ms[..i];
    ClosedStays(run, ms, i + 1, over, shutdown);
  }
}
