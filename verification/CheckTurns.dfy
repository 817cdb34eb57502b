/**
 * Check turns and their budgeted runs, over every run of the manager
 * (src/agent/manager.ts).
 */
module CheckTurns {
  import opened Common
  import opened AgentManager
  import opened FolderExclusion
  import opened Lifecycle
  import T = TurnBook

  // ------------------------------------------------------ what one step changes

  /** Why a step touches an instance. */
  datatype Cause =
    | Quiet                             // flags only, or nothing
    | Appears                           // a boot added a fresh instance
    | BySend(sent: T.Event)             // a send pushed its input
    | ByTag(tag: T.Event)               // a boot's run was tagged late
    | ByResult                          // a result ended its oldest input
    | ByCheck(pushed: RunId)            // a granted check was pushed
    | Abandoned(dropped: RunId)         // a granted check was not pushed
    | ByEnd                             // the query loop ended, and with it an open check run

  /** The run of instance `i` is ended by this step. */
  ghost predicate RunEnds(i: Instance, i': Instance, st: State, st': State) {
    i'.evolveRun == None && st'.started == st.started &&
    st'.finished == st.finished + if i.evolveRun.Some? then [i.evolveRun.value] else []
  }

  ghost predicate SameRuns(st: State, st': State) {
    st'.started == st.started && st'.finished == st.finished
  }

  /** Instance `n` changes for cause `c`. */
  ghost predicate ChangesFor(st: State, st': State, n: nat, c: Cause)
    requires n < |st.insts| == |st'.insts|
  {
    var i, i' := st.insts[n], st'.insts[n];
    i'.sid == i.sid && i'.bootFp == i.bootFp &&
    match c
    case Quiet =>
      && i'.book == i.book && i'.checkEnded == i.checkEnded && i'.evolveRun == i.evolveRun
      && i'.inAutoEvolve == i.inAutoEvolve && i'.unwound == i.unwound && SameRuns(st, st')
    case Appears => false
    case BySend(t) =>
      && t.Sent? && i' == i.(book := T.Step(i.book, t))
      && !i.reloading && !i.closing && i.checkEnded.None? && SameRuns(st, st')
    case ByTag(t) => t.BootTag? && i' == i.(book := T.Step(i.book, t)) && SameRuns(st, st')
    case ByResult =>
      && i'.book == T.Step(i.book, T.Result) && i'.checkEnded == None && i'.unwound == i.unwound
      && (i'.evolveRun == i.evolveRun || i'.evolveRun == None)
      && (i.inAutoEvolve || i.evolveRun.None? ==> RunEnds(i, i', st, st'))
    case ByCheck(r) =>
      && i' == WithCheck(i.(evolveRun := Some(r)))
      && i.book.pendingInputs == 0 && !i.reloading && !i.aborted && !i.inAutoEvolve
      && st'.started == st.started + {r} && st'.finished == st.finished
    case Abandoned(r) => i' == i && st'.started == st.started + {r} && st'.finished == st.finished + [r]
    case ByEnd =>
      && i'.book == i.book && i'.checkEnded == i.checkEnded && i'.inAutoEvolve == i.inAutoEvolve
      && RunEnds(i, i', st, st')
  }

  ghost predicate Fresh(i: Instance) {
    i.book.pendingInputs == 1 && i.checkEnded == None && i.evolveRun == None
  }

  /** The step changes instance `n` for cause `c` and no other, or adds one fresh instance. */
  ghost predicate Caused(st: State, st': State, n: nat, c: Cause) {
    || (n < |st.insts| == |st'.insts| && st'.insts == st.insts[n := st'.insts[n]] && ChangesFor(st, st', n, c))
    || (c.Quiet? && st'.insts == st.insts && SameRuns(st, st'))
    || (c.Appears? && |st'.insts| == |st.insts| + 1 && st'.insts[..|st.insts|] == st.insts
        && Fresh(st'.insts[|st.insts|]) && SameRuns(st, st'))
  }

  lemma SegmentCause(cfg: Config, st: State, k: nat) returns (n: nat, c: Cause)
    requires WellFormed(st) && k in st.sends
    ensures Caused(st, SendSegment(cfg, st, k), n, c)
    ensures c.Quiet? || c.BySend?
    ensures st.sends[k].sid !in st.live ==> c.Quiet? && SendSegment(cfg, st, k).insts == st.insts
  {
    var s := st.sends[k];
    n, c := 0, Quiet;
    if s.sid in st.live && !st.insts[st.live[s.sid]].reloading && !st.insts[st.live[s.sid]].closing
       && st.insts[st.live[s.sid]].checkEnded.None? && !NeedsFolder(cfg, st, s.sid) {
      n, c := st.live[s.sid], BySend(T.Sent(s.synthetic, s.sender, s.run));
    }
  }

  lemma AbortCause(st: State, sid: Id) returns (n: nat)
    requires WellFormed(st)
    ensures Caused(st, Aborted(st, sid), n, Quiet)
  {
    n := if sid in st.live then st.live[sid] else 0;
  }

  lemma DetachCause(st: State, n: nat)
    requires WellFormed(st) && n < |st.insts|
    ensures Caused(st, Detached(st, n), n, Quiet)
  {
  }

  lemma LetGoCause(st: State, sid: Id, n: nat) returns (m: nat)
    requires WellFormed(st)
    ensures Caused(st, LetGo(st, sid, n), m, Quiet)
  {
    if sid in st.live && st.live[sid] == n {
      m := n;
      DetachCause(st, n);
    } else {
      m := AbortCause(st, sid);
    }
  }

  lemma AskOrBootKeepsInstances(cfg: Config, st: State, k: nat)
    requires k in st.sends
    ensures AskOrBoot(cfg, st, k).insts == st.insts && SameRuns(st, AskOrBoot(cfg, st, k))
  {
  }

  /** A send that gives up changes flags only: the instance it aborts keeps its inputs and its run. */
  lemma GiveUpCause(cfg: Config, st: State, k: nat, n: nat) returns (m: nat)
    requires WellFormed(st) && k in st.sends
    ensures Caused(st, GivenUp(cfg, st, k, n), m, Quiet)
  {
    m := LetGoCause(st, st.sends[k].sid, n);
    AskOrBootKeepsInstances(cfg, LetGo(st, st.sends[k].sid, n), k);
  }

  lemma TagCause(st: State, k: nat) returns (n: nat, c: Cause)
    requires WellFormed(st) && k in st.sends
    ensures Caused(st, TagAfterBoot(st, k), n, c) && (c.Quiet? || c.ByTag?)
  {
    var s := st.sends[k];
    n, c := 0, Quiet;
    if s.run.Some? && s.sid in st.live {
      n, c := st.live[s.sid], ByTag(T.BootTag(s.run.value));
    }
  }

  lemma ResultInstanceIs(cfg: Config, i: Instance, o: Outcome, deferred: bool)
    requires cfg.budgeted
    ensures var i' := ResultInstance(cfg, i, o, deferred);
            && i'.sid == i.sid && i'.bootFp == i.bootFp && i'.unwound == i.unwound
            && i'.book == T.Step(i.book, T.Result) && i'.checkEnded == None
            && i'.evolveRun == if EndedCheckRun(i).Some? then None else i.evolveRun
  {
  }

  lemma ResultRuns(cfg: Config, st: State, n: nat, o: Outcome, k: nat)
    requires WellFormed(st) && n < |st.insts|
    ensures var st', ended := AfterResult(cfg, st, n, o, k), EndedCheckRun(st.insts[n]);
            && st'.started == st.started
            && st'.finished == st.finished + if ended.Some? then [ended.value] else []
  {
  }

  lemma ResultCause(cfg: Config, st: State, n: nat, o: Outcome, k: nat)
    requires cfg.budgeted && WellFormed(st) && n < |st.insts|
    ensures Caused(st, AfterResult(cfg, st, n, o, k), n, ByResult)
  {
    var i' := ResultInstance(cfg, st.insts[n], o, Deferred(st, n));
    assert AfterResult(cfg, st, n, o, k).insts == st.insts[n := i'];
    ResultInstanceIs(cfg, st.insts[n], o, Deferred(st, n));
    ResultRuns(cfg, st, n, o, k);
  }

  lemma GrantCause(cfg: Config, st: State, k: nat, run: RunId, voice: bool) returns (c: Cause)
    requires WellFormed(st) && k in st.checks
    ensures Caused(st, AfterGrant(cfg, st, k, run, voice), st.checks[k].inst, c)
    ensures c == if PushesCheck(cfg, st, st.checks[k], voice) then ByCheck(run) else Abandoned(run)
  {
    c := if PushesCheck(cfg, st, st.checks[k], voice) then ByCheck(run) else Abandoned(run);
  }

  lemma FlagsCause(st: State, sid: Id, fp: string) returns (n: nat)
    requires WellFormed(st)
    ensures Caused(st, Reloaded(st, sid), n, Quiet)
    ensures Caused(st, ReloadedAfterTurn(st, sid), n, Quiet)
    ensures Caused(st, FpAsked(st, sid, fp), n, Quiet)
  {
    n := if sid in st.live then st.live[sid] else 0;
  }

  lemma UnwindCause(st: State, n: nat)
    requires WellFormed(st) && n < |st.insts|
    ensures Caused(st, Unwound(st, n), n, ByEnd)
  {
  }

  lemma RetryCause(st: State, n: nat)
    requires WellFormed(st) && n < |st.insts|
    ensures Caused(st, Retried(st, n), n, ByEnd)
  {
  }

  lemma ExitCause(st: State, n: nat)
    requires WellFormed(st) && n < |st.insts|
    ensures Caused(st, Exited(st, n), n, Quiet)
  {
  }

  lemma BootCause(st: State, sid: Id)
    requires sid in st.booting
    ensures Caused(st, BootSucceeds(st, sid), 0, Appears)
  {
    assert BootSucceeds(st, sid).insts[..|st.insts|] == st.insts;
  }

  lemma NoBootCause(cfg: Config, st: State, sid: Id)
    requires WellFormed(st) && sid in st.booting
    ensures Caused(st, BootFails(cfg, st, sid), 0, Quiet)
  {
  }

  ghost predicate Fits(st: State, e: Event, n: nat, c: Cause) {
    && (c.Appears? <==> e.BootDone?)
    && (c.BySend? ==> e.Continue?)
    && (c.ByTag? ==> e.TagBoot?)
    && (c.ByResult? <==> e.Result?)
    && (c.ByResult? ==> n == e.inst)
    && (c.ByCheck? || c.Abandoned? <==> e.CheckGranted?)
    && (c.ByCheck? ==> c.pushed !in st.started && e.key in st.checks && n == st.checks[e.key].inst)
    && (c.Abandoned? ==> c.dropped !in st.started)
    && (c.ByEnd? ==> (e.Unwind? || e.Retry?) && n == e.inst)
  }

  lemma SendStepCause(cfg: Config, st: State, e: Event) returns (n: nat, c: Cause)
    requires WellFormed(st) && Enabled(cfg, st, e)
    requires e.NewSend? || e.Continue? || e.Wake? || e.GiveUp? || e.SendFailed? || e.TagBoot? || e.BootDone?
             || e.BootFailed?
    ensures Caused(st, Next(cfg, st, e), n, c) && Fits(st, e, n, c)
  {
    n, c := 0, Quiet;
    match e
    case Continue(k) => n, c := SegmentCause(cfg, st, k);
    case GiveUp(k) => n := GiveUpCause(cfg, st, k, st.sends[k].at.inst);
    case BootDone(sid) => c := Appears; BootCause(st, sid);
    case BootFailed(sid) => NoBootCause(cfg, st, sid);
    case TagBoot(k) => n, c := TagCause(st, k);
    case _ =>
  }

  lemma ExitStepCause(cfg: Config, st: State, e: Event) returns (n: nat, c: Cause)
    requires WellFormed(st) && Enabled(cfg, st, e)
    requires e.Unwind? || e.Exit? || e.Retry?
    ensures Caused(st, Next(cfg, st, e), n, c) && Fits(st, e, n, c)
  {
    n, c := 0, Quiet;
    match e
    case Unwind(m) => n, c := m, ByEnd; UnwindCause(st, m);
    case Exit(m) => n := m; ExitCause(st, m);
    case Retry(m) => n, c := m, ByEnd; RetryCause(st, m);
  }

  lemma IdleStepCause(cfg: Config, st: State, e: Event) returns (n: nat)
    requires WellFormed(st) && Enabled(cfg, st, e) && (e.IdleClosed? || e.CheckRefused?)
    ensures Caused(st, Next(cfg, st, e), n, Quiet)
  {
    n := if e.IdleClosed? then e.inst else 0;
  }

  lemma FlagStepCause(cfg: Config, st: State, e: Event) returns (n: nat)
    requires WellFormed(st) && Enabled(cfg, st, e) && (e.Reload? || e.ReloadAfterTurn? || e.AskFp? || e.Abort?)
    ensures Caused(st, Next(cfg, st, e), n, Quiet)
  {
    match e
    case Reload(sid) => n := FlagsCause(st, sid, "");
    case ReloadAfterTurn(sid) => n := FlagsCause(st, sid, "");
    case AskFp(sid, fp) => n := FlagsCause(st, sid, fp);
    case Abort(sid) => n := AbortCause(st, sid);
  }

  lemma TurnStepCause(cfg: Config, st: State, e: Event) returns (n: nat, c: Cause)
    requires (e.Result? ==> cfg.budgeted) && WellFormed(st) && Enabled(cfg, st, e) && (e.Result? || e.CheckGranted?)
    ensures Caused(st, Next(cfg, st, e), n, c) && Fits(st, e, n, c)
  {
    match e
    case Result(m, o, k) => n, c := m, ByResult; ResultCause(cfg, st, m, o, k);
    case CheckGranted(k, run, voice) => n := st.checks[k].inst; c := GrantCause(cfg, st, k, run, voice);
  }

  /** Every step has one cause, and only the matching events push inputs or end them. */
  lemma StepCause(cfg: Config, st: State, e: Event) returns (n: nat, c: Cause)
    requires (e.Result? ==> cfg.budgeted) && WellFormed(st) && Enabled(cfg, st, e)
    ensures Caused(st, Next(cfg, st, e), n, c) && Fits(st, e, n, c)
  {
    n, c := 0, Quiet;
    if e.Unwind? || e.Exit? || e.Retry? {
      n, c := ExitStepCause(cfg, st, e);
    } else if e.IdleClosed? || e.CheckRefused? {
      n := IdleStepCause(cfg, st, e);
    } else if e.Result? || e.CheckGranted? {
      n, c := TurnStepCause(cfg, st, e);
    } else if e.Reload? || e.ReloadAfterTurn? || e.AskFp? || e.Abort? {
      n := FlagStepCause(cfg, st, e);
    } else {
      n, c := SendStepCause(cfg, st, e);
    }
  }

  // ------------------------------------------------------------------ isolation

  /** A check in flight is the only outstanding input, and an open check run belongs to a check in flight. */
  ghost predicate Isolated(i: Instance) {
    && (i.checkEnded.Some? ==> i.book.pendingInputs == 1)
    && (i.evolveRun.Some? ==> i.checkEnded.Some? && i.inAutoEvolve)
  }

  ghost predicate AllIsolated(insts: seq<Instance>) {
    forall n :: 0 <= n < |insts| ==> Isolated(insts[n])
  }

  lemma CauseKeepsIsolation(st: State, st': State, n: nat, c: Cause)
    requires AllIsolated(st.insts) && Caused(st, st', n, c)
    ensures AllIsolated(st'.insts)
  {
    forall m | 0 <= m < |st'.insts| ensures Isolated(st'.insts[m]) {
      if m < |st.insts| {
        assert Isolated(st.insts[m]);
      }
      assert m < |st.insts| == |st'.insts| && m != n ==> st'.insts[m] == st.insts[m];
      assert m < |st.insts| < |st'.insts| ==> st'.insts[m] == st'.insts[..|st.insts|][m];
    }
  }

  /** Across a step every instance but the one it changes stays as it was. */
  lemma InstanceAcross(st: State, st': State, m: nat, c: Cause, n: nat)
    requires Caused(st, st', m, c) && n < |st.insts|
    ensures n < |st'.insts|
    ensures st'.insts[n] == st.insts[n] || (n == m && |st.insts| == |st'.insts| && ChangesFor(st, st', n, c))
  {
    if |st'.insts| == |st.insts| + 1 {
      assert st'.insts[..|st.insts|][n] == st'.insts[n];
    }
  }

  /** The inputs of an instance, without the background runs tagged to them. */
  function Inputs(b: T.Book): (seq<bool>, seq<Option<T.Sender>>, nat, nat) {
    (b.inputSynthetic, b.inputSenders, b.inputSeq, b.pendingInputs)
  }

  /** While a check turn is in flight nothing but its result touches the inputs of its instance. */
  lemma OnlyItsResultEndsACheck(cfg: Config, st: State, e: Event, n: nat)
    requires cfg.budgeted && WellFormed(st) && Enabled(cfg, st, e) && n < |st.insts| && Isolated(st.insts[n])
    requires st.insts[n].checkEnded.Some? && !(e.Result? && e.inst == n)
    ensures n < |Next(cfg, st, e).insts|
    ensures Inputs(Next(cfg, st, e).insts[n].book) == Inputs(st.insts[n].book)
    ensures Next(cfg, st, e).insts[n].checkEnded == st.insts[n].checkEnded
  {
    var m, c := StepCause(cfg, st, e);
    CheckOutlives(st, Next(cfg, st, e), m, c, n);
  }

  lemma CheckOutlives(st: State, st': State, m: nat, c: Cause, n: nat)
    requires Caused(st, st', m, c) && n < |st.insts| && Isolated(st.insts[n]) && st.insts[n].checkEnded.Some?
    requires c.ByResult? ==> m != n
    ensures n < |st'.insts| && Inputs(st'.insts[n].book) == Inputs(st.insts[n].book)
    ensures st'.insts[n].checkEnded == st.insts[n].checkEnded
  {
    InstanceAcross(st, st', m, c, n);
  }

  /** A check turn runs in the live instance of the session, and nothing else of the session boots. */
  ghost predicate CheckHolds(st: State, sid: Id, m: nat) {
    && sid in st.live && st.live[sid] == m < |st.insts|
    && st.insts[m].checkEnded.Some? && sid !in st.booting
  }

  /** The check turn of instance `m` ends with this step, or the instance leaves with it. */
  predicate CheckOver(st: State, e: Event, m: nat) {
    (e.Result? && e.inst == m) || Leaves(st, e, m)
  }

  /**
   * While a check turn is in flight every other send waits: the session keeps its instance, its
   * inputs and its check, and boots nothing, exactly when the step does not overtake it.
   */
  lemma CheckHoldsExactly(cfg: Config, st: State, e: Event, sid: Id, m: nat)
    requires cfg.budgeted && WellFormed(st) && Enabled(cfg, st, e)
    requires CheckHolds(st, sid, m) && Isolated(st.insts[m]) && !CheckOver(st, e, m)
    ensures var st' := Next(cfg, st, e);
            CheckHolds(st', sid, m) && Inputs(st'.insts[m].book) == Inputs(st.insts[m].book) <==>
            !Overtakes(cfg, st, e, sid)
  {
    AloneExactly(cfg, st, e, sid);
    OnlyItsResultEndsACheck(cfg, st, e, m);
  }

  ghost predicate Undisturbed(cfg: Config, st: State, es: seq<Event>, sid: Id, m: nat)
    requires Sound(cfg, st) && Possible(cfg, st, es)
    decreases es
  {
    es == [] ||
    (StepSound(cfg, st, es[0]);
     && !CheckOver(st, es[0], m) && !Overtakes(cfg, st, es[0], sid)
     && Undisturbed(cfg, Next(cfg, st, es[0]), es[1..], sid, m))
  }

  /** Over every run a session in a check turn runs nothing else until the check is over or overtaken. */
  lemma {:induction false} CheckHoldsOverRuns(cfg: Config, st: State, es: seq<Event>, sid: Id, m: nat)
    requires cfg.budgeted && Sound(cfg, st) && Possible(cfg, st, es) && AllIsolated(st.insts)
    requires CheckHolds(st, sid, m) && Undisturbed(cfg, st, es, sid, m)
    ensures CheckHolds(Run(cfg, st, es), sid, m)
    ensures Inputs(Run(cfg, st, es).insts[m].book) == Inputs(st.insts[m].book)
    decreases es
  {
    if es != [] {
      StepSound(cfg, st, es[0]);
      CheckHoldsExactly(cfg, st, es[0], sid, m);
      var n, c := StepCause(cfg, st, es[0]);
      CauseKeepsIsolation(st, Next(cfg, st, es[0]), n, c);
      CheckHoldsOverRuns(cfg, Next(cfg, st, es[0]), es[1..], sid, m);
    }
  }

  /**
   * An input enters an instance only by a send that finds it neither reloading, closing nor checking, or as a
   * check of an idle one.
   */
  lemma SendsAvoidBusyInstances(cfg: Config, st: State, e: Event, n: nat)
    requires cfg.budgeted && WellFormed(st) && Enabled(cfg, st, e) && n < |st.insts|
    ensures n < |Next(cfg, st, e).insts|
    ensures Next(cfg, st, e).insts[n].book.inputSeq != st.insts[n].book.inputSeq ==>
              || (e.Continue? && !st.insts[n].reloading && !st.insts[n].closing && st.insts[n].checkEnded.None?)
              || (e.CheckGranted? && !st.insts[n].reloading && !st.insts[n].aborted
                  && st.insts[n].book.pendingInputs == 0)
  {
    var m, c := StepCause(cfg, st, e);
    InstanceAcross(st, Next(cfg, st, e), m, c, n);
  }

  // ---------------------------------------------------------- one end per run

  /** Every check run opened is ended at most once; one not ended is held by exactly one instance. */
  ghost predicate RunsKept(insts: seq<Instance>, started: set<RunId>, finished: seq<RunId>) {
    && NoDuplicates(finished)
    && (forall r :: r in finished ==> r in started)
    && (forall n :: 0 <= n < |insts| && insts[n].evolveRun.Some? ==>
        insts[n].evolveRun.value in started && insts[n].evolveRun.value !in finished)
    && (forall n, m :: 0 <= n < m < |insts| && insts[n].evolveRun.Some? ==> insts[n].evolveRun != insts[m].evolveRun)
    && (forall r :: r in started && r !in finished ==> exists n :: 0 <= n < |insts| && insts[n].evolveRun == Some(r))
  }

  /** An instance that lets go of its run, with the run ended at once. */
  lemma EndingKeepsRuns(
      insts: seq<Instance>, started: set<RunId>, finished: seq<RunId>, n: nat, i: Instance, finished': seq<RunId>)
    requires RunsKept(insts, started, finished) && n < |insts| && i.evolveRun == None
    requires finished' == if insts[n].evolveRun.Some? then finished + [insts[n].evolveRun.value] else finished
    ensures RunsKept(insts[n := i], started, finished')
  {
    var insts' := insts[n := i];
    forall r | r in started && r !in finished' ensures exists m :: 0 <= m < |insts'| && insts'[m].evolveRun == Some(r) {
      var m :| 0 <= m < |insts| && insts[m].evolveRun == Some(r);
      assert insts'[m].evolveRun == Some(r);
    }
  }

  /** A change that leaves every instance its run. */
  lemma SameRunsKept(insts: seq<Instance>, insts': seq<Instance>, started: set<RunId>, finished: seq<RunId>)
    requires RunsKept(insts, started, finished) && |insts| <= |insts'|
    requires forall n :: 0 <= n < |insts| ==> insts'[n].evolveRun == insts[n].evolveRun
    requires forall n :: |insts| <= n < |insts'| ==> insts'[n].evolveRun == None
    ensures RunsKept(insts', started, finished)
  {
    forall r | r in started && r !in finished ensures exists m :: 0 <= m < |insts'| && insts'[m].evolveRun == Some(r) {
      var m :| 0 <= m < |insts| && insts[m].evolveRun == Some(r);
      assert insts'[m].evolveRun == Some(r);
    }
  }

  lemma OpeningKeepsRuns(
      insts: seq<Instance>, started: set<RunId>, finished: seq<RunId>, n: nat, i: Instance, r0: RunId)
    requires RunsKept(insts, started, finished) && r0 !in started
    ensures RunsKept(insts, started + {r0}, finished + [r0])
    ensures n < |insts| && insts[n].evolveRun.None? && i.evolveRun == Some(r0) ==>
            RunsKept(insts[n := i], started + {r0}, finished)
  {
    if n < |insts| && insts[n].evolveRun.None? && i.evolveRun == Some(r0) {
      var insts' := insts[n := i];
      forall r | r in started + {r0} && r !in finished
        ensures exists m :: 0 <= m < |insts'| && insts'[m].evolveRun == Some(r)
      {
        if r == r0 {
          assert insts'[n].evolveRun == Some(r);
        } else {
          var m :| 0 <= m < |insts| && insts[m].evolveRun == Some(r);
          assert insts'[m].evolveRun == Some(r);
        }
      }
    }
  }

  lemma EndKeepsRuns(st: State, st': State, n: nat)
    requires RunsKept(st.insts, st.started, st.finished) && n < |st.insts| == |st'.insts|
    requires st'.insts == st.insts[n := st'.insts[n]] && RunEnds(st.insts[n], st'.insts[n], st, st')
    ensures RunsKept(st'.insts, st'.started, st'.finished)
  {
    EndingKeepsRuns(st.insts, st.started, st.finished, n, st'.insts[n], st'.finished);
  }

  lemma QuietKeepsRuns(st: State, st': State)
    requires RunsKept(st.insts, st.started, st.finished) && SameRuns(st, st') && |st.insts| <= |st'.insts|
    requires forall m :: 0 <= m < |st.insts| ==> st'.insts[m].evolveRun == st.insts[m].evolveRun
    requires forall m :: |st.insts| <= m < |st'.insts| ==> st'.insts[m].evolveRun == None
    ensures RunsKept(st'.insts, st'.started, st'.finished)
  {
    SameRunsKept(st.insts, st'.insts, st.started, st.finished);
  }

  lemma GrantKeepsRuns(st: State, st': State, n: nat, c: Cause)
    requires RunsKept(st.insts, st.started, st.finished) && n < |st.insts| == |st'.insts| && Isolated(st.insts[n])
    requires st'.insts == st.insts[n := st'.insts[n]] && ChangesFor(st, st', n, c)
    requires (c.ByCheck? && c.pushed !in st.started) || (c.Abandoned? && c.dropped !in st.started)
    ensures RunsKept(st'.insts, st'.started, st'.finished)
  {
    assert c.Abandoned? ==> st'.insts == st.insts;
    OpeningKeepsRuns(st.insts, st.started, st.finished, n, st'.insts[n], if c.ByCheck? then c.pushed else c.dropped);
  }

  lemma CauseKeepsRuns(st: State, st': State, n: nat, c: Cause)
    requires AllIsolated(st.insts) && RunsKept(st.insts, st.started, st.finished) && Caused(st, st', n, c)
    requires c.ByCheck? ==> c.pushed !in st.started
    requires c.Abandoned? ==> c.dropped !in st.started
    ensures RunsKept(st'.insts, st'.started, st'.finished)
  {
    if n < |st.insts| == |st'.insts| && st'.insts == st.insts[n := st'.insts[n]] && ChangesFor(st, st', n, c) {
      assert Isolated(st.insts[n]);
      if c.ByResult? || c.ByEnd? {
        EndKeepsRuns(st, st', n);
      } else if c.ByCheck? || c.Abandoned? {
        GrantKeepsRuns(st, st', n, c);
      } else {
        QuietKeepsRuns(st, st');
      }
    } else {
      assert forall m :: 0 <= m < |st.insts| ==> st'.insts[..|st.insts|][m] == st'.insts[m];
      QuietKeepsRuns(st, st');
    }
  }

  // ------------------------------------------------------------------ whole runs

  /**
   * Over every run of a budgeted manager: a check turn in flight is the only
   * outstanding input of its instance, and every check run opened is ended at
   * most once, or is held by exactly one instance.
   */
  lemma {:induction false} ChecksOverRuns(cfg: Config, st: State, es: seq<Event>)
    requires cfg.budgeted && Sound(cfg, st) && Possible(cfg, st, es)
    requires AllIsolated(st.insts) && RunsKept(st.insts, st.started, st.finished)
    ensures AllIsolated(Run(cfg, st, es).insts)
    ensures RunsKept(Run(cfg, st, es).insts, Run(cfg, st, es).started, Run(cfg, st, es).finished)
    decreases es
  {
    if es != [] {
      StepSound(cfg, st, es[0]);
      var st' := Next(cfg, st, es[0]);
      var n, c := StepCause(cfg, st, es[0]);
      CauseKeepsIsolation(st, st', n, c);
      CauseKeepsRuns(st, st', n, c);
      ChecksOverRuns(cfg, st', es[1..]);
    }
  }

  // ----------------------------------------------------------- a run left open

  /** No instance whose query loop has ended still holds an open check run. */
  ghost predicate NoRunLeftOpen(insts: seq<Instance>) {
    forall n :: 0 <= n < |insts| && insts[n].unwound ==> insts[n].evolveRun == None
  }

  /** The granted check goes to an instance whose query loop has ended: nothing will end its run. */
  predicate PushesIntoUnwound(cfg: Config, st: State, e: Event) {
    && e.CheckGranted? && e.key in st.checks && st.checks[e.key].inst < |st.insts|
    && st.insts[st.checks[e.key].inst].unwound && PushesCheck(cfg, st, st.checks[e.key], e.voice)
  }

  lemma CauseLeavesRunOpen(cfg: Config, st: State, st': State, n: nat, c: Cause)
    requires NoRunLeftOpen(st.insts) && Caused(st, st', n, c)
    ensures NoRunLeftOpen(st'.insts) <==> !(c.ByCheck? && n < |st.insts| && st.insts[n].unwound)
  {
    if |st'.insts| == |st.insts| + 1 {
      assert forall m :: 0 <= m < |st.insts| ==> st'.insts[..|st.insts|][m] == st'.insts[m];
    } else if c.ByCheck? && n < |st.insts| && st.insts[n].unwound {
      assert st'.insts[n].unwound && st'.insts[n].evolveRun.Some?;
    }
  }

  /** A check run is left open exactly by a check pushed into an instance whose query loop has already ended. */
  lemma RunLeftOpenExactly(cfg: Config, st: State, e: Event)
    requires cfg.budgeted && WellFormed(st) && Enabled(cfg, st, e) && NoRunLeftOpen(st.insts)
    ensures NoRunLeftOpen(Next(cfg, st, e).insts) <==> !PushesIntoUnwound(cfg, st, e)
  {
    var n, c := StepCause(cfg, st, e);
    CauseLeavesRunOpen(cfg, st, Next(cfg, st, e), n, c);
    if e.CheckGranted? {
      var c' := GrantCause(cfg, st, e.key, e.checkRun, e.voice);
      GrantPushes(cfg, st, e, n, c);
    }
  }

  lemma GrantPushes(cfg: Config, st: State, e: Event, n: nat, c: Cause)
    requires WellFormed(st) && Enabled(cfg, st, e) && e.CheckGranted? && Fits(st, e, n, c)
    requires Caused(st, Next(cfg, st, e), n, c)
    ensures c.ByCheck? <==> PushesCheck(cfg, st, st.checks[e.key], e.voice)
  {
  }

  /** An instance whose query loop has ended keeps the check run it holds. */
  lemma StepKeepsOpen(cfg: Config, st: State, e: Event, n: nat)
    requires cfg.budgeted && WellFormed(st) && Enabled(cfg, st, e) && n < |st.insts|
    requires st.insts[n].unwound && st.insts[n].evolveRun.Some? && Isolated(st.insts[n])
    ensures n < |Next(cfg, st, e).insts| && Next(cfg, st, e).insts[n].unwound
    ensures Next(cfg, st, e).insts[n].evolveRun == st.insts[n].evolveRun
  {
    var m, c := StepCause(cfg, st, e);
    InstanceAcross(st, Next(cfg, st, e), m, c, n);
  }

  lemma {:induction false} RunKeepsOpen(cfg: Config, st: State, es: seq<Event>, n: nat)
    requires cfg.budgeted && Sound(cfg, st) && Possible(cfg, st, es) && AllIsolated(st.insts)
    requires n < |st.insts| && st.insts[n].unwound && st.insts[n].evolveRun.Some?
    ensures n < |Run(cfg, st, es).insts| && Run(cfg, st, es).insts[n].evolveRun == st.insts[n].evolveRun
    decreases es
  {
    if es != [] {
      StepSound(cfg, st, es[0]);
      StepKeepsOpen(cfg, st, es[0], n);
      var m, c := StepCause(cfg, st, es[0]);
      CauseKeepsIsolation(st, Next(cfg, st, es[0]), m, c);
      RunKeepsOpen(cfg, Next(cfg, st, es[0]), es[1..], n);
    }
  }

  ghost predicate OpenAfter(cfg: Config, st: State, es: seq<Event>, r: RunId)
    requires Sound(cfg, st)
  {
    Possible(cfg, st, es) ==> r !in Run(cfg, st, es).finished
  }

  lemma LoopEndEndsRun(cfg: Config, st: State, n: nat, r: RunId)
    requires Sound(cfg, st) && WellFormed(st) && n < |st.insts| && !st.insts[n].unwound
    requires st.insts[n].evolveRun == Some(r)
    ensures !OpenAfter(cfg, st, [Unwind(n)] + [], r)
  {
    var st' := Unwound(st, n);
    assert st'.finished == st.finished + [r];
    LeadsStep(cfg, st, Unwind(n), st', [], st');
    LeadsRuns(cfg, st, [Unwind(n)] + [], st');
  }

  /**
   * A check run that an instance holds is open for good, over every run from here, exactly when the
   * query loop of that instance has ended.
   */
  lemma OpenForGoodExactly(cfg: Config, st: State, n: nat, r: RunId)
    requires cfg.budgeted && Sound(cfg, st) && WellFormed(st)
    requires AllIsolated(st.insts) && RunsKept(st.insts, st.started, st.finished)
    requires n < |st.insts| && st.insts[n].evolveRun == Some(r)
    ensures (forall es: seq<Event> :: OpenAfter(cfg, st, es, r)) <==> st.insts[n].unwound
  {
    if st.insts[n].unwound {
      forall es: seq<Event>
        ensures OpenAfter(cfg, st, es, r)
      {
        if Possible(cfg, st, es) {
          RunKeepsOpen(cfg, st, es, n);
          ChecksOverRuns(cfg, st, es);
        }
      }
    } else {
      LoopEndEndsRun(cfg, st, n, r);
    }
  }

  const PLAIN := Config(map[], true)
  const BOOT := Boot(false, None, None, Some(0))
  const ALIVE := NewInstance("S", BOOT)
  const IDLE := ALIVE.(book := T.Ended(ALIVE.book))
  const CHECKED := WithCheck(IDLE.(closing := true, unwound := true, evolveRun := Some(7)))

  // S runs its first turn, which asks for a check; S is closed as idle and its loop ends before the run is granted.
  const RUNS := INITIAL.(insts := [ALIVE], live := map["S" := 0],
    sends := map[0 := Send("S", false, None, None, AwaitTag)])
  const ASKS := RUNS.(insts := [IDLE], checks := map[1 := CheckStart("S", 0, 1)])
  const CLOSING := ASKS.(insts := [IDLE.(closing := true)])
  const UNWOUND := ASKS.(insts := [IDLE.(closing := true, unwound := true)])
  const PUSHED := UNWOUND.(insts := [CHECKED], checks := map[], started := {7})
  const LEFT_OPEN := PUSHED.(insts := [CHECKED.(exited := true)], live := map[])

  const ASKED := INITIAL.(sends := map[0 := Send("S", false, None, None, Ready)])
  const BOOTS := INITIAL.(sends := map[0 := Send("S", false, None, None, Booting)], booting := map["S" := BOOT])

  lemma FirstBoots()
    ensures WellFormed(BOOTS) && "S" in BOOTS.booting && BootSucceeds(BOOTS, "S") == RUNS
  {
  }

  lemma FirstContinues(es: seq<Event>, end: State)
    requires Leads(PLAIN, BOOTS, es, end)
    ensures Leads(PLAIN, ASKED, [Continue(0)] + es, end)
  {
    LeadsStep(PLAIN, ASKED, Continue(0), BOOTS, es, end);
  }

  lemma FirstTurn(es: seq<Event>, end: State)
    requires Leads(PLAIN, RUNS, es, end)
    ensures Leads(PLAIN, INITIAL, [NewSend(0, "S", false, None, None)] + ([Continue(0)] + ([BootDone("S")] + es)), end)
  {
    FirstBoots();
    BootsUp(PLAIN, BOOTS, "S", es, end);
    FirstContinues([BootDone("S")] + es, end);
    LeadsStep(PLAIN, INITIAL, NewSend(0, "S", false, None, None), ASKED, [Continue(0)] + ([BootDone("S")] + es), end);
  }

  lemma TurnAsksForACheck(es: seq<Event>, end: State)
    requires Leads(PLAIN, ASKS, es, end)
    ensures Leads(PLAIN, RUNS, [Result(0, Succeeded(true), 1)] + es, end)
  {
    LeadsStep(PLAIN, RUNS, Result(0, Succeeded(true), 1), ASKS, es, end);
  }

  lemma ClosesWhileAsking(es: seq<Event>, end: State)
    requires Leads(PLAIN, CLOSING, es, end)
    ensures Leads(PLAIN, ASKS, [IdleClosed(0)] + es, end)
  {
    LeadsStep(PLAIN, ASKS, IdleClosed(0), CLOSING, es, end);
  }

  lemma UnwindsWhileAsking(es: seq<Event>, end: State)
    requires Leads(PLAIN, UNWOUND, es, end)
    ensures Leads(PLAIN, CLOSING, [Unwind(0)] + es, end)
  {
    LeadsStep(PLAIN, CLOSING, Unwind(0), UNWOUND, es, end);
  }

  lemma GrantReachesTheUnwound()
    ensures WellFormed(UNWOUND) && AfterGrant(PLAIN, UNWOUND, 1, 7, false) == PUSHED
  {
    assert PushesCheck(PLAIN, UNWOUND, UNWOUND.checks[1], false);
    assert UNWOUND.checks - {1} == map[];
  }

  lemma ChecksTheUnwound(es: seq<Event>, end: State)
    requires Leads(PLAIN, PUSHED, es, end)
    ensures Leads(PLAIN, UNWOUND, [CheckGranted(1, 7, false)] + es, end)
  {
    GrantReachesTheUnwound();
    LeadsStep(PLAIN, UNWOUND, CheckGranted(1, 7, false), PUSHED, es, end);
  }

  lemma ExitsAfterTheCheck()
    ensures Leads(PLAIN, PUSHED, [Exit(0)] + [], LEFT_OPEN)
  {
    LeadsStep(PLAIN, PUSHED, Exit(0), LEFT_OPEN, [], LEFT_OPEN);
  }

  /** Such a run exists: a session closed as idle while its check run starts leaves the run open for good. */
  lemma RunCanBeLeftOpen() returns (es: seq<Event>)
    ensures Sound(PLAIN, INITIAL) && Possible(PLAIN, INITIAL, es)
    ensures var st := Run(PLAIN, INITIAL, es);
            7 in st.started && 7 !in st.finished && forall n :: 0 <= n < |st.insts| ==> st.insts[n].exited
  {
    var es3 := [CheckGranted(1, 7, false)] + ([Exit(0)] + []);
    var es2 := [IdleClosed(0)] + ([Unwind(0)] + es3);
    var es1 := [Result(0, Succeeded(true), 1)] + es2;
    ExitsAfterTheCheck();
    ChecksTheUnwound([Exit(0)] + [], LEFT_OPEN);
    UnwindsWhileAsking(es3, LEFT_OPEN);
    ClosesWhileAsking([Unwind(0)] + es3, LEFT_OPEN);
    TurnAsksForACheck(es2, LEFT_OPEN);
    FirstTurn(es1, LEFT_OPEN);
    es := [NewSend(0, "S", false, None, None)] + ([Continue(0)] + ([BootDone("S")] + es1));
    LeadsFromTheStart(PLAIN, es, LEFT_OPEN);
  }

  // ----------------------------------------------------------- when a check is pushed

  /**
   * A check is asked for by a result that ends the last input of a turn worth one, of a budgeted
   * manager, when it is no check's own and no reload waited for it; the start knows the inputs so far.
   */
  lemma ChecksAreAsked(cfg: Config, st: State, n: nat, o: Outcome, k: nat)
    requires WellFormed(st) && Enabled(cfg, st, Result(n, o, k))
    ensures var i := st.insts[n];
            Next(cfg, st, Result(n, o, k)).checks ==
            if && cfg.budgeted && o == Succeeded(true) && !i.inAutoEvolve
               && i.book.pendingInputs <= 1 && i.sid !in st.reloadAfterTurn
            then st.checks[k := CheckStart(i.sid, n, i.book.inputSeq)] else st.checks
  {
    ResultFields(cfg, st, n, o, k, Deferred(st, n));
  }

  /** The session is as the turn left it: nothing was given to it since, and nothing keeps it from a check. */
  ghost predicate StillThere(cfg: Config, st: State, c: CheckStart)
    requires WellFormed(st) && c.inst < |st.insts|
  {
    var i := st.insts[c.inst];
    && c.sid in st.live && st.live[c.sid] == c.inst
    && i.book.inputSeq == c.seq_ && i.book.pendingInputs == 0
    && !i.inAutoEvolve && !i.reloading && !i.aborted && c.sid !in st.reloadAfterTurn
    && (c.sid in cfg.home ==>
          var holder := C.HolderOf(st.claims, cfg.home[c.sid]);
          holder == None || holder == Some(c.sid))
  }

  /** A refused check start is over, and nothing else happens. */
  lemma RefusedChecksEnd(cfg: Config, st: State, k: nat)
    requires WellFormed(st) && k in st.checks
    ensures Enabled(cfg, st, CheckRefused(k)) && Next(cfg, st, CheckRefused(k)) == st.(checks := st.checks - {k})
  {
  }

  lemma PushesWhenStill(cfg: Config, st: State, c: CheckStart, voice: bool)
    requires WellFormed(st) && c.inst < |st.insts|
    ensures PushesCheck(cfg, st, c, voice) <==> StillThere(cfg, st, c) && !voice
  {
  }

  /**
   * A granted check becomes the next input of its instance, alone and with its run open, exactly when
   * the session is as the turn left it and no voice call is on; otherwise its run is ended and nothing
   * else happens.
   */
  lemma ChecksArePushedExactly(cfg: Config, st: State, k: nat, run: RunId, voice: bool)
    requires WellFormed(st) && Enabled(cfg, st, CheckGranted(k, run, voice))
    ensures var c, st' := st.checks[k], Next(cfg, st, CheckGranted(k, run, voice));
            && st'.checks == st.checks - {k} && st'.started == st.started + {run}
            && |st'.insts| == |st.insts|
            && if StillThere(cfg, st, c) && !voice then
                 var i, i' := st.insts[c.inst], st'.insts[c.inst];
                 && i'.evolveRun == Some(run) && i'.inAutoEvolve && i'.checkEnded == Some(i'.book.inputSeq)
                 && i'.book.inputSeq == i.book.inputSeq + 1 && i'.book.pendingInputs == 1
                 && st'.finished == st.finished
                 && (c.sid in cfg.home ==> st'.claims == C.Acquired(st.claims, cfg.home[c.sid], c.sid))
               else st'.insts == st.insts && st'.finished == st.finished + [run] && st'.claims == st.claims
  {
    GrantFields(cfg, st, k, run, voice);
    PushesWhenStill(cfg, st, st.checks[k], voice);
  }
}
