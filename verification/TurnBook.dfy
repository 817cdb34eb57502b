/**
 * The per-session bookkeeping of inputs and turns (LiveSession in
 * src/agent/manager.ts): two parallel queues, two counters and the background
 * runs tagged with the number of the input they ride on.
 */
module TurnBook {
  import opened Common

  type RunId = nat

  /** Who sent one input; the message's own text is not part of the model. */
  datatype Sender = Sender(userId: string, teamId: Option<string>, origin: Option<string>)

  datatype Book = Book(
    inputSynthetic: seq<bool>,
    inputSenders: seq<Option<Sender>>,
    inputSeq: nat,
    pendingInputs: nat,
    bgRuns: map<nat, RunId>)

  /** A session boots with its first input already queued. */
  function Booted(synthetic: bool, sender: Option<Sender>): Book {
    Book([synthetic], [if synthetic then None else sender], 1, 1, map[])
  }

  function Pushed(b: Book, synthetic: bool, sender: Option<Sender>): Book {
    b.(inputSynthetic := b.inputSynthetic + [synthetic],
       inputSenders := b.inputSenders + [if synthetic then None else sender],
       inputSeq := b.inputSeq + 1,
       pendingInputs := b.pendingInputs + 1)
  }

  function Tagged(b: Book, run: Option<RunId>): Book {
    if run.None? then b else b.(bgRuns := b.bgRuns[b.inputSeq := run.value])
  }

  function Shift<T>(s: seq<T>): seq<T> {
    if s == [] then [] else s[1..]
  }

  /** The number of the input a result ends, as the handler computes it. */
  function EndedSeq(b: Book): int {
    b.inputSeq - b.pendingInputs + 1
  }

  function EndedRun(b: Book): Option<RunId> {
    var k := EndedSeq(b);
    if k >= 0 && k in b.bgRuns then Some(b.bgRuns[k]) else None
  }

  function Ended(b: Book): Book {
    Book(
      Shift(b.inputSynthetic),
      Shift(b.inputSenders),
      b.inputSeq,
      if b.pendingInputs > 0 then b.pendingInputs - 1 else 0,
      map k | k in b.bgRuns && k != EndedSeq(b) :: b.bgRuns[k])
  }

  ghost predicate Aligned(b: Book) {
    |b.inputSynthetic| == |b.inputSenders| == b.pendingInputs <= b.inputSeq
  }

  // ------------------------------------------------- what the queues stand for

  /** One input as it was pushed, and the background run it carries. */
  datatype Input = Input(synthetic: bool, sender: Option<Sender>, run: Option<RunId>)

  /** All inputs ever pushed into one instance, of which the first `ended` have had their result. */
  datatype History = History(inputs: seq<Input>, ended: nat)

  ghost predicate Represents(b: Book, h: History) {
    && h.ended <= |h.inputs| == b.inputSeq
    && b.pendingInputs == |h.inputs| - h.ended
    && |b.inputSynthetic| == |b.inputSenders| == b.pendingInputs
    && (forall i :: 0 <= i < b.pendingInputs ==> b.inputSynthetic[i] == h.inputs[h.ended + i].synthetic)
    && (forall i :: 0 <= i < b.pendingInputs ==> b.inputSenders[i] == h.inputs[h.ended + i].sender)
    && (forall i :: 0 <= i < |h.inputs| ==> (h.inputs[i].synthetic ==> h.inputs[i].sender == None))
    && (forall k :: k in b.bgRuns ==> k <= |h.inputs|)
    && (forall k :: h.ended < k <= |h.inputs| ==>
          h.inputs[k - 1].run == if k in b.bgRuns then Some(b.bgRuns[k]) else None)
  }

  /** What can happen to one instance: a delivered input, the late tag of a boot's run, a result. */
  datatype Event =
    | Sent(synthetic: bool, sender: Option<Sender>, run: Option<RunId>)
    | BootTag(tag: RunId)
    | Result

  function Step(b: Book, e: Event): Book {
    match e
    case Sent(synthetic, sender, run) => Tagged(Pushed(b, synthetic, sender), run)
    case BootTag(run) => if b.inputSeq == 1 then Tagged(b, Some(run)) else b
    case Result => Ended(b)
  }

  /** The run the event finishes, if any. */
  function Finishes(b: Book, e: Event): Option<RunId> {
    if e.Result? then EndedRun(b) else None
  }

  ghost function HistoryStep(h: History, e: Event): History {
    match e
    case Sent(synthetic, sender, run) =>
      h.(inputs := h.inputs + [Input(synthetic, if synthetic then None else sender, run)])
    case BootTag(run) => if |h.inputs| == 1 && h.ended == 0 then h.(inputs := [h.inputs[0].(run := Some(run))]) else h
    case Result => if h.ended < |h.inputs| then h.(ended := h.ended + 1) else h
  }

  function Run(b: Book, es: seq<Event>): Book
    decreases es
  {
    if es == [] then b else Run(Step(b, es[0]), es[1..])
  }

  ghost function HistoryRun(h: History, es: seq<Event>): History
    decreases es
  {
    if es == [] then h else HistoryRun(HistoryStep(h, es[0]), es[1..])
  }

  /** The runs finished by the results of a run, in order. */
  function FinishedRuns(b: Book, es: seq<Event>): seq<RunId>
    decreases es
  {
    if es == [] then []
    else (if Finishes(b, es[0]).Some? then [Finishes(b, es[0]).value] else []) + FinishedRuns(Step(b, es[0]), es[1..])
  }

  /** The runs the given inputs carry, in order. */
  ghost function Carried(inputs: seq<Input>): seq<RunId> {
    if inputs == [] then []
    else
      Carried(inputs[..|inputs| - 1]) +
      if inputs[|inputs| - 1].run.Some? then [inputs[|inputs| - 1].run.value] else []
  }

  lemma PushRepresents(b: Book, h: History, e: Event)
    requires Represents(b, h) && e.Sent?
    ensures Represents(Step(b, e), HistoryStep(h, e))
  {
  }

  lemma ResultRepresents(b: Book, h: History)
    requires Represents(b, h)
    ensures Represents(Ended(b), HistoryStep(h, Result))
    ensures EndedRun(b) == if h.ended < |h.inputs| then h.inputs[h.ended].run else None
  {
  }

  lemma StepRepresents(b: Book, h: History, e: Event)
    requires Represents(b, h)
    ensures Represents(Step(b, e), HistoryStep(h, e))
    ensures Finishes(b, e) == if e.Result? && h.ended < |h.inputs| then h.inputs[h.ended].run else None
  {
    match e
    case Sent(_, _, _) => PushRepresents(b, h, e);
    case BootTag(_) =>
    case Result => ResultRepresents(b, h);
  }

  /**
   * After any sequence of pushes and results the two flag queues have length
   * `pendingInputs`, `inputSeq - pendingInputs` inputs have ended, and the
   * queues hold exactly the flags and senders of the others, oldest first.
   */
  lemma {:induction false} QueuesHoldTheOutstandingInputs(b: Book, h: History, es: seq<Event>)
    requires Represents(b, h)
    ensures Represents(Run(b, es), HistoryRun(h, es))
    ensures Aligned(Run(b, es))
    ensures Run(b, es).inputSeq - Run(b, es).pendingInputs == HistoryRun(h, es).ended
    decreases es
  {
    if es != [] {
      StepRepresents(b, h, es[0]);
      QueuesHoldTheOutstandingInputs(Step(b, es[0]), HistoryStep(h, es[0]), es[1..]);
    }
  }

  lemma {:induction false} CarriedSoFar(h: History, e: Event)
    requires h.ended <= |h.inputs|
    ensures var h' := HistoryStep(h, e);
            h'.ended <= |h'.inputs| &&
            Carried(h'.inputs[..h'.ended]) == Carried(h.inputs[..h.ended]) +
              if e.Result? && h.ended < |h.inputs| && h.inputs[h.ended].run.Some?
              then [h.inputs[h.ended].run.value] else []
  {
    var h' := HistoryStep(h, e);
    if e.Result? && h.ended < |h.inputs| {
      assert h'.inputs[..h'.ended][..h.ended] == h.inputs[..h.ended];
    } else {
      assert h'.inputs[..h'.ended] == h.inputs[..h.ended];
    }
  }

  /**
   * A result finishes exactly the run of the input it ends: the finished runs are those of the ended inputs,
   * in order.
   */
  lemma {:induction false} ResultsFinishTheirOwnRuns(b: Book, h: History, es: seq<Event>)
    requires Represents(b, h)
    ensures HistoryRun(h, es).ended <= |HistoryRun(h, es).inputs|
    ensures Carried(h.inputs[..h.ended]) + FinishedRuns(b, es) ==
            Carried(HistoryRun(h, es).inputs[..HistoryRun(h, es).ended])
    decreases es
  {
    if es == [] {
      assert Carried(h.inputs[..h.ended]) + [] == Carried(h.inputs[..h.ended]);
    } else {
      var h1, b1 := HistoryStep(h, es[0]), Step(b, es[0]);
      var one := if Finishes(b, es[0]).Some? then [Finishes(b, es[0]).value] else [];
      assert Represents(b1, h1) && Carried(h1.inputs[..h1.ended]) == Carried(h.inputs[..h.ended]) + one by {
        StepRepresents(b, h, es[0]);
        CarriedSoFar(h, es[0]);
      }
      ResultsFinishTheirOwnRuns(b1, h1, es[1..]);
      Regroup(Carried(h.inputs[..h.ended]), one, FinishedRuns(b1, es[1..]));
    }
  }

  lemma Regroup<A>(x: seq<A>, y: seq<A>, z: seq<A>)
    ensures (x + y) + z == x + (y + z)
  {
  }

  // ------------------------------------------------------------- turn senders

  /** The queues agree with the counter, and every outstanding input has a sender. */
  ghost predicate SendersKnown(b: Book) {
    b.pendingInputs > 0 && |b.inputSenders| == |b.inputSynthetic| == b.pendingInputs && None !in b.inputSenders
  }

  /** The distinct senders of every outstanding input, or None when one of them has no sender. */
  method TurnSenders(b: Book) returns (r: Option<seq<Sender>>)
    ensures r.Some? <==> SendersKnown(b)
    ensures r.Some? ==> NoDuplicates(r.value) && forall s :: s in r.value <==> Some(s) in b.inputSenders
  {
    if b.pendingInputs == 0 || |b.inputSenders| != b.pendingInputs || |b.inputSynthetic| != b.pendingInputs {
      return None;
    }
    var out: seq<Sender> := [];
    var i := 0;
    while i < |b.inputSenders|
      invariant 0 <= i <= |b.inputSenders|
      invariant None !in b.inputSenders[..i]
      invariant NoDuplicates(out)
      invariant forall s :: s in out <==> Some(s) in b.inputSenders[..i]
    {
      if b.inputSenders[i].None? {
        return None;
      }
      var s := b.inputSenders[i].value;
      assert b.inputSenders[..i + 1] == b.inputSenders[..i] + [b.inputSenders[i]];
      if s !in out {
        out := out + [s];
      }
      i := i + 1;
    }
    assert b.inputSenders[..i] == b.inputSenders;
    return Some(out);
  }

  /**
   * When the queues represent a history, senders are reported exactly when some
   * input is outstanding and each outstanding one was delivered with a sender.
   */
  lemma SendersKnownExactly(b: Book, h: History)
    requires Represents(b, h)
    ensures SendersKnown(b) <==>
            (h.ended < |h.inputs| &&
             forall i :: h.ended <= i < |h.inputs| ==> h.inputs[i].sender.Some? && !h.inputs[i].synthetic)
    ensures forall s :: Some(s) in b.inputSenders <==>
            exists i :: h.ended <= i < |h.inputs| && h.inputs[i].sender == Some(s)
  {
    forall i | h.ended <= i < |h.inputs|
      ensures b.inputSenders[i - h.ended] == h.inputs[i].sender && h.inputs[i].sender in b.inputSenders
    {
    }
  }

  // ------------------------------------------------------------------ the class

  /** The bookkeeping fields of a live session, updated in place. */
  class LiveTurns {
    var inputSynthetic: seq<bool>
    var inputSenders: seq<Option<Sender>>
    var inputSeq: nat
    var pendingInputs: nat
    var bgRuns: map<nat, RunId>

    ghost function View(): Book
      reads this
    {
      Book(inputSynthetic, inputSenders, inputSeq, pendingInputs, bgRuns)
    }

    constructor (synthetic: bool, sender: Option<Sender>)
      ensures View() == Booted(synthetic, sender)
      ensures Represents(View(), History([Input(synthetic, if synthetic then None else sender, None)], 0))
    {
      inputSynthetic := [synthetic];
      inputSenders := [if synthetic then None else sender];
      inputSeq := 1;
      pendingInputs := 1;
      bgRuns := map[];
    }

    method PushUser(synthetic: bool, sender: Option<Sender>, run: Option<RunId>)
      modifies this
      ensures View() == Step(old(View()), Sent(synthetic, sender, run))
    {
      inputSeq := inputSeq + 1;
      pendingInputs := pendingInputs + 1;
      inputSynthetic := inputSynthetic + [synthetic];
      inputSenders := inputSenders + [if synthetic then None else sender];
      if run.Some? {
        bgRuns := bgRuns[inputSeq := run.value];
      }
    }

    /** The bookkeeping of a `result`: the oldest outstanding input ends, with the run it carries. */
    method EndInput() returns (run: Option<RunId>)
      modifies this
      ensures View() == Step(old(View()), Result)
      ensures run == Finishes(old(View()), Result)
    {
      var endedSeq := inputSeq - pendingInputs + 1;
      run := None;
      if endedSeq >= 0 && endedSeq in bgRuns {
        run := Some(bgRuns[endedSeq]);
        bgRuns := bgRuns - {endedSeq};
      }
      pendingInputs := if pendingInputs > 0 then pendingInputs - 1 else 0;
      inputSynthetic := Shift(inputSynthetic);
      inputSenders := Shift(inputSenders);
    }
  }
}
