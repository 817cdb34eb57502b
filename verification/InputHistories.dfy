/**
 * The inputs each instance was given over a run of the manager (src/agent/manager.ts),
 * and its queues, which hold those of them that have not ended.
 */
module InputHistories {
  import opened Common
  import opened AgentManager
  import opened FolderExclusion
  import opened CheckTurns
  import T = TurnBook

  /** A send that finds the live instance ready to take its input. */
  predicate Pushes(cfg: Config, st: State, k: nat)
    requires WellFormed(st) && k in st.sends
  {
    var sid := st.sends[k].sid;
    sid in st.live && !NeedsFolder(cfg, st, sid) &&
    var i := st.insts[st.live[sid]];
    !i.reloading && !i.closing && i.checkEnded.None?
  }

  const CHECK := T.Sent(true, None, None)

  /** What a step of the manager is to the bookkeeping of instance `n`. */
  ghost function BookEvents(cfg: Config, st: State, e: Event, n: nat): seq<T.Event>
    requires WellFormed(st) && Enabled(cfg, st, e) && n < |st.insts|
  {
    match e
    case Continue(k) =>
      var s := st.sends[k];
      if Pushes(cfg, st, k) && st.live[s.sid] == n then [T.Sent(s.synthetic, s.sender, s.run)] else []
    case TagBoot(k) =>
      var s := st.sends[k];
      if s.run.Some? && s.sid in st.live && st.live[s.sid] == n then [T.BootTag(s.run.value)] else []
    case Result(m, o, k) =>
      if m != n then []
      else if ChecksAtOnce(cfg, st, n, o) then [T.Result, CHECK]
      else [T.Result]
    case CheckGranted(k, run, voice) =>
      if st.checks[k].inst == n && PushesCheck(cfg, st, st.checks[k], voice) then [CHECK] else []
    case _ => []
  }

  /** The result is followed by an unbudgeted check. */
  predicate ChecksAtOnce(cfg: Config, st: State, n: nat, o: Outcome)
    requires n < |st.insts|
  {
    !cfg.budgeted && ChecksAfter(st.insts[n], o, Deferred(st, n))
  }

  /** The step moves the bookkeeping of instance `n` by its events, and by nothing else. */
  ghost predicate Moves(cfg: Config, st: State, e: Event, n: nat, st': State)
    requires WellFormed(st) && Enabled(cfg, st, e) && n < |st.insts|
  {
    n < |st'.insts| && st'.insts[n].book == T.Run(st.insts[n].book, BookEvents(cfg, st, e, n))
  }

  lemma RunsEvents(b: T.Book, e: T.Event, e': T.Event)
    ensures T.Run(b, []) == b
    ensures T.Run(b, [e]) == T.Step(b, e)
    ensures T.Run(b, [e, e']) == T.Step(T.Step(b, e), e')
  {
    assert [e][1..] == [] && [e, e'][1..] == [e'];
    assert T.Run(T.Step(b, e), [e']) == T.Step(T.Step(b, e), e') by {
      assert [e'][1..] == [];
    }
  }

  lemma PushIs(cfg: Config, st: State, k: nat)
    requires WellFormed(st) && k in st.sends
    ensures Pushes(cfg, st, k) ==> SendSegment(cfg, st, k).insts == PushInput(st, k, st.live[st.sends[k].sid]).insts
    ensures !Pushes(cfg, st, k) ==> SendSegment(cfg, st, k).insts == st.insts
  {
  }

  lemma SegmentMoves(cfg: Config, st: State, k: nat, n: nat)
    requires WellFormed(st) && Enabled(cfg, st, Continue(k)) && n < |st.insts|
    ensures Moves(cfg, st, Continue(k), n, SendSegment(cfg, st, k))
  {
    var s := st.sends[k];
    RunsEvents(st.insts[n].book, T.Sent(s.synthetic, s.sender, s.run), T.Result);
    PushIs(cfg, st, k);
  }

  lemma TagMoves(cfg: Config, st: State, k: nat, n: nat)
    requires WellFormed(st) && Enabled(cfg, st, TagBoot(k)) && n < |st.insts|
    ensures Moves(cfg, st, TagBoot(k), n, TagAfterBoot(st, k))
  {
    var s := st.sends[k];
    RunsEvents(st.insts[n].book, T.BootTag(if s.run.Some? then s.run.value else 0), T.Result);
  }

  lemma ResultMoves(cfg: Config, st: State, m: nat, o: Outcome, k: nat, n: nat)
    requires WellFormed(st) && Enabled(cfg, st, Result(m, o, k)) && n < |st.insts|
    ensures Moves(cfg, st, Result(m, o, k), n, AfterResult(cfg, st, m, o, k))
  {
    var i := st.insts[m];
    RunsEvents(st.insts[n].book, T.Result, CHECK);
    ResultFields(cfg, st, m, o, k, Deferred(st, m));
    assert T.Step(T.Ended(i.book), CHECK) == T.Pushed(T.Ended(i.book), true, None);
  }

  lemma GrantMoves(cfg: Config, st: State, k: nat, run: RunId, voice: bool, n: nat)
    requires WellFormed(st) && Enabled(cfg, st, CheckGranted(k, run, voice)) && n < |st.insts|
    ensures Moves(cfg, st, CheckGranted(k, run, voice), n, AfterGrant(cfg, st, k, run, voice))
  {
    RunsEvents(st.insts[n].book, CHECK, T.Result);
    GrantFields(cfg, st, k, run, voice);
  }

  /** Every step moves the bookkeeping of every instance by the events of that instance. */
  lemma StepMovesBooks(cfg: Config, st: State, e: Event, n: nat)
    requires WellFormed(st) && Enabled(cfg, st, e) && n < |st.insts|
    ensures Moves(cfg, st, e, n, Next(cfg, st, e))
  {
    match e
    case Continue(k) => SegmentMoves(cfg, st, k, n);
    case TagBoot(k) => TagMoves(cfg, st, k, n);
    case Result(m, o, k) => ResultMoves(cfg, st, m, o, k, n);
    case CheckGranted(k, run, voice) => GrantMoves(cfg, st, k, run, voice, n);
    case _ => OthersLeaveBooks(cfg, st, e, n);
  }

  lemma OthersLeaveBooks(cfg: Config, st: State, e: Event, n: nat)
    requires WellFormed(st) && Enabled(cfg, st, e) && n < |st.insts|
    requires !e.Continue? && !e.TagBoot? && !e.Result? && !e.CheckGranted?
    ensures n < |Next(cfg, st, e).insts| && Next(cfg, st, e).insts[n].book == st.insts[n].book
  {
    var m, c := StepCause(cfg, st, e);
    InstanceAcross(st, Next(cfg, st, e), m, c, n);
  }

  // ------------------------------------------------------------------ whole runs

  /** The inputs given to each instance so far, and how many of them have ended. */
  ghost predicate Kept(insts: seq<Instance>, hs: seq<T.History>) {
    |hs| == |insts| && forall n :: 0 <= n < |insts| ==> T.Represents(insts[n].book, hs[n])
  }

  /** An instance is born with the input it was booted for. */
  function Born(b: Boot): T.History {
    T.History([T.Input(b.synthetic, if b.synthetic then None else b.sender, None)], 0)
  }

  ghost function HistoriesAfter(cfg: Config, st: State, e: Event, hs: seq<T.History>): seq<T.History>
    requires WellFormed(st) && Enabled(cfg, st, e) && |hs| == |st.insts|
  {
    seq(|hs|, n requires 0 <= n < |hs| => T.HistoryRun(hs[n], BookEvents(cfg, st, e, n)))
    + if e.BootDone? then [Born(st.booting[e.sid])] else []
  }

  ghost function Histories(cfg: Config, st: State, es: seq<Event>, hs: seq<T.History>): seq<T.History>
    requires Sound(cfg, st) && Possible(cfg, st, es) && |hs| == |st.insts|
    decreases es
  {
    if es == [] then hs
    else
      StepSound(cfg, st, es[0]);
      InstancesGrow(cfg, st, es[0]);
      Histories(cfg, Next(cfg, st, es[0]), es[1..], HistoriesAfter(cfg, st, es[0], hs))
  }

  /** Only a boot adds an instance. */
  lemma InstancesGrow(cfg: Config, st: State, e: Event)
    requires WellFormed(st) && Enabled(cfg, st, e)
    ensures |Next(cfg, st, e).insts| == |st.insts| + if e.BootDone? then 1 else 0
    ensures e.BootDone? ==> Next(cfg, st, e).insts[|st.insts|] == NewInstance(e.sid, st.booting[e.sid])
  {
    if e.Result? {
      ResultAddsNone(cfg, st, e.inst, e.outcome, e.key);
    } else {
      var n, c := StepCause(cfg, st, e);
    }
  }

  lemma ResultAddsNone(cfg: Config, st: State, n: nat, o: Outcome, k: nat)
    requires WellFormed(st) && n < |st.insts|
    ensures |AfterResult(cfg, st, n, o, k).insts| == |st.insts|
  {
  }

  lemma StepKeepsHistories(cfg: Config, st: State, e: Event, hs: seq<T.History>)
    requires WellFormed(st) && Enabled(cfg, st, e) && Kept(st.insts, hs)
    ensures Kept(Next(cfg, st, e).insts, HistoriesAfter(cfg, st, e, hs))
  {
    var st', hs' := Next(cfg, st, e), HistoriesAfter(cfg, st, e, hs);
    InstancesGrow(cfg, st, e);
    forall n | 0 <= n < |st'.insts| ensures T.Represents(st'.insts[n].book, hs'[n]) {
      if n < |st.insts| {
        StepMovesBooks(cfg, st, e, n);
        T.QueuesHoldTheOutstandingInputs(st.insts[n].book, hs[n], BookEvents(cfg, st, e, n));
      }
    }
  }

  /**
   * Over every run the queues of every instance, live or not, hold exactly the
   * inputs it was booted with or given that have not ended, oldest first, with
   * the runs they carry.
   */
  lemma {:induction false} QueuesHoldTheGivenInputs(cfg: Config, st: State, es: seq<Event>, hs: seq<T.History>)
    requires Sound(cfg, st) && Possible(cfg, st, es) && Kept(st.insts, hs)
    ensures Kept(Run(cfg, st, es).insts, Histories(cfg, st, es, hs))
    decreases es
  {
    if es != [] {
      StepSound(cfg, st, es[0]);
      InstancesGrow(cfg, st, es[0]);
      StepKeepsHistories(cfg, st, es[0], hs);
      QueuesHoldTheGivenInputs(cfg, Next(cfg, st, es[0]), es[1..], HistoriesAfter(cfg, st, es[0], hs));
    }
  }
}
