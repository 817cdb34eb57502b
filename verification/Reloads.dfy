/**
 * Reloads (src/agent/manager.ts): which steps tell an instance to reload, which sessions
 * are marked to reload after their turn, and that no turn in flight loses its input.
 */
module Reloads {
  import opened Common
  import opened AgentManager
  import opened CheckTurns
  import opened ConfigFingerprint
  import opened FolderExclusion
  import opened InputHistories
  import opened Lifecycle
  import T = TurnBook

  /** Instance `n` is the live one of the session. */
  predicate IsLive(st: State, sid: Id, n: nat) {
    sid in st.live && st.live[sid] == n
  }

  predicate Outstanding(st: State, n: nat) {
    n < |st.insts| && st.insts[n].book.pendingInputs > 0
  }

  /** The step asks for a reload of the live instance `n`, after its turn if there is one. */
  predicate AsksReload(st: State, e: Event, n: nat)
    requires n < |st.insts|
  {
    match e
    case ReloadAfterTurn(sid) => IsLive(st, sid, n)
    case AskFp(sid, fp) => IsLive(st, sid, n) && st.insts[n].bootFp != Some(fp)
    case _ => false
  }

  /** The steps that tell instance `n` to reload. */
  predicate Raises(st: State, e: Event, n: nat)
    requires n < |st.insts|
  {
    match e
    case Reload(sid) => IsLive(st, sid, n)
    case Result(m, o, _) =>
      m == n && ((o.StreamClosed? && o.restart) ||
                 (st.insts[n].book.pendingInputs <= 1 && st.insts[n].sid in st.reloadAfterTurn))
    case _ => AsksReload(st, e, n) && !Outstanding(st, n)
  }

  /** Only a boot adds an instance; the others are told to reload, or were. */
  ghost predicate ReloadsAre(st: State, e: Event, st': State) {
    && |st.insts| <= |st'.insts|
    && (forall n :: 0 <= n < |st.insts| ==>
          (st'.insts[n].reloading <==> st.insts[n].reloading || Raises(st, e, n)))
    && forall n :: |st.insts| <= n < |st'.insts| ==> !st'.insts[n].reloading
  }

  /** The sessions marked to reload after their turn. */
  ghost predicate MarksAre(st: State, e: Event, st': State) {
    forall sid ::
      sid in st'.reloadAfterTurn <==>
      || (sid in st.reloadAfterTurn && !EndsMark(st, e, sid))
      || (sid in st.live && st.live[sid] < |st.insts| && AsksReload(st, e, st.live[sid])
          && st.insts[st.live[sid]].sid == sid && Outstanding(st, st.live[sid]) && !st.insts[st.live[sid]].reloading)
  }

  /** What takes a session's mark away: an abort, a detachment, the end of its live instance, or of its last turn. */
  predicate EndsMark(st: State, e: Event, sid: Id) {
    match e
    case Abort(s) => s == sid
    case GiveUp(k) => k in st.sends && st.sends[k].sid == sid
    case Unwind(n) => n < |st.insts| && st.insts[n].sid == sid && Owns(st, n)
    case Exit(n) => n < |st.insts| && st.insts[n].sid == sid && Owns(st, n)
    case Result(n, _, _) => n < |st.insts| && st.insts[n].sid == sid && st.insts[n].book.pendingInputs <= 1
    case _ => false
  }

  // ------------------------------------------------------------- one step at a time

  /** Nobody is told to reload. */
  ghost predicate SameReloads(st: State, st': State) {
    && |st.insts| <= |st'.insts|
    && (forall n :: 0 <= n < |st.insts| ==> st'.insts[n].reloading == st.insts[n].reloading)
    && forall n :: |st.insts| <= n < |st'.insts| ==> !st'.insts[n].reloading
  }

  /** Nobody is told to reload, and these sessions are marked. */
  ghost predicate Unmoved(st: State, st': State, marks: set<Id>) {
    SameReloads(st, st') && st'.reloadAfterTurn == marks
  }

  lemma PartsReloads(cfg: Config, st: State, k: nat, at: Place, n: nat)
    requires k in st.sends
    ensures Unmoved(st, Park(st, k, at), st.reloadAfterTurn)
    ensures st.sends[k].sid in cfg.home ==> Unmoved(st, AskFolder(cfg, st, k), st.reloadAfterTurn)
    ensures n < |st.insts| ==> Unmoved(st, PushInput(st, k, n), st.reloadAfterTurn)
    ensures Unmoved(st, StartBoot(st, k), st.reloadAfterTurn)
  {
  }

  lemma SegmentReloads(cfg: Config, st: State, k: nat)
    requires WellFormed(st) && k in st.sends
    ensures Unmoved(st, SendSegment(cfg, st, k), st.reloadAfterTurn)
  {
    var sid := st.sends[k].sid;
    if sid in st.live {
      var n := st.live[sid];
      PartsReloads(cfg, st, k, AwaitExit(n), n);
      if st.insts[n].checkEnded.Some? {
        PartsReloads(cfg, st, k, AwaitCheck(n, st.insts[n].checkEnded.value), n);
      }
    } else {
      PartsReloads(cfg, st, k, Ready, 0);
    }
  }

  lemma AbortReloads(st: State, sid: Id)
    requires WellFormed(st)
    ensures Unmoved(st, Aborted(st, sid), st.reloadAfterTurn - {sid})
  {
  }

  lemma DetachReloads(st: State, n: nat)
    requires WellFormed(st) && n < |st.insts|
    ensures Unmoved(st, Detached(st, n), st.reloadAfterTurn - {st.insts[n].sid})
  {
  }

  lemma LetGoReloads(st: State, sid: Id, n: nat)
    requires WellFormed(st)
    ensures Unmoved(st, LetGo(st, sid, n), st.reloadAfterTurn - {sid}) && LetGo(st, sid, n).sends == st.sends
  {
    LetGoLife(st, sid, n);
    if sid in st.live && st.live[sid] == n {
      DetachReloads(st, n);
    } else {
      AbortReloads(st, sid);
    }
  }

  lemma GiveUpReloads(cfg: Config, st: State, k: nat, n: nat)
    requires WellFormed(st) && k in st.sends
    ensures Unmoved(st, GivenUp(cfg, st, k, n), st.reloadAfterTurn - {st.sends[k].sid})
  {
    LetGoReloads(st, st.sends[k].sid, n);
    AskOrBootReloads(cfg, LetGo(st, st.sends[k].sid, n), k);
  }

  lemma AskOrBootReloads(cfg: Config, st: State, k: nat)
    requires k in st.sends
    ensures Unmoved(st, AskOrBoot(cfg, st, k), st.reloadAfterTurn)
  {
    PartsReloads(cfg, st, k, Ready, 0);
  }

  lemma TellReloads(st: State, sid: Id)
    requires WellFormed(st)
    ensures var st' := Reloaded(st, sid);
            && st'.reloadAfterTurn == st.reloadAfterTurn && |st'.insts| == |st.insts|
            && forall n :: 0 <= n < |st.insts| ==>
                 st'.insts[n].reloading == (st.insts[n].reloading || IsLive(st, sid, n))
  {
  }

  /** Told at once only without an input outstanding; else marked. */
  lemma AfterTurnReloads(st: State, sid: Id)
    requires WellFormed(st)
    ensures var st' := ReloadedAfterTurn(st, sid);
            && |st'.insts| == |st.insts|
            && (forall n :: 0 <= n < |st.insts| ==>
                  st'.insts[n].reloading == (st.insts[n].reloading || (IsLive(st, sid, n) && !Outstanding(st, n))))
            && st'.reloadAfterTurn == st.reloadAfterTurn +
               if sid in st.live && Outstanding(st, st.live[sid]) && !st.insts[st.live[sid]].reloading
               then {sid} else {}
  {
    TellReloads(st, sid);
  }

  lemma AfterTurnIs(st: State, sid: Id)
    requires WellFormed(st)
    ensures var st' := ReloadedAfterTurn(st, sid);
            ReloadsAre(st, ReloadAfterTurn(sid), st') && MarksAre(st, ReloadAfterTurn(sid), st')
  {
    AfterTurnReloads(st, sid);
  }

  lemma TellIs(st: State, sid: Id)
    requires WellFormed(st)
    ensures ReloadsAre(st, Reload(sid), Reloaded(st, sid)) && MarksAre(st, Reload(sid), Reloaded(st, sid))
  {
    TellReloads(st, sid);
  }

  /** A fingerprint other than the live instance's reloads it after its turn; any other asks for nothing. */
  lemma AskedReloads(st: State, sid: Id, fp: string)
    requires WellFormed(st)
    ensures ReloadsAre(st, AskFp(sid, fp), FpAsked(st, sid, fp)) && MarksAre(st, AskFp(sid, fp), FpAsked(st, sid, fp))
  {
    var st1, st' := st.(desiredFp := st.desiredFp[sid := fp]), FpAsked(st, sid, fp);
    if sid in st.live && st.insts[st.live[sid]].bootFp != Some(fp) {
      AfterTurnIs(st1, sid);
      SameAsks(st, st1, sid, fp, st');
    } else {
      assert st'.insts == st.insts && st'.reloadAfterTurn == st.reloadAfterTurn;
    }
  }

  lemma SameAsks(st: State, st1: State, sid: Id, fp: string, st': State)
    requires WellFormed(st) && sid in st.live && st.insts[st.live[sid]].bootFp != Some(fp)
    requires st1.insts == st.insts && st1.live == st.live && st1.reloadAfterTurn == st.reloadAfterTurn
    requires ReloadsAre(st1, ReloadAfterTurn(sid), st') && MarksAre(st1, ReloadAfterTurn(sid), st')
    ensures ReloadsAre(st, AskFp(sid, fp), st') && MarksAre(st, AskFp(sid, fp), st')
  {
    forall n | 0 <= n < |st.insts|
      ensures AsksReload(st, AskFp(sid, fp), n) <==> AsksReload(st1, ReloadAfterTurn(sid), n)
    {
    }
    SameReloadsAsked(st, st1, sid, fp, st');
    SameMarksAsked(st, st1, sid, fp, st');
  }

  lemma SameReloadsAsked(st: State, st1: State, sid: Id, fp: string, st': State)
    requires WellFormed(st) && st1.insts == st.insts && st1.live == st.live
    requires ReloadsAre(st1, ReloadAfterTurn(sid), st')
    requires forall n :: 0 <= n < |st.insts| ==>
               (AsksReload(st, AskFp(sid, fp), n) <==> AsksReload(st1, ReloadAfterTurn(sid), n))
    ensures ReloadsAre(st, AskFp(sid, fp), st')
  {
  }

  lemma SameMarksAsked(st: State, st1: State, sid: Id, fp: string, st': State)
    requires WellFormed(st) && st1.insts == st.insts && st1.live == st.live
    requires st1.reloadAfterTurn == st.reloadAfterTurn
    requires MarksAre(st1, ReloadAfterTurn(sid), st')
    requires forall n :: 0 <= n < |st.insts| ==>
               (AsksReload(st, AskFp(sid, fp), n) <==> AsksReload(st1, ReloadAfterTurn(sid), n))
    ensures MarksAre(st, AskFp(sid, fp), st')
  {
  }

  lemma ResultReloads(cfg: Config, st: State, n: nat, o: Outcome, k: nat)
    requires WellFormed(st) && n < |st.insts|
    ensures var st' := AfterResult(cfg, st, n, o, k);
            ReloadsAre(st, Result(n, o, k), st') && MarksAre(st, Result(n, o, k), st')
  {
    ResultFields(cfg, st, n, o, k, Deferred(st, n));
  }

  lemma GrantReloads(cfg: Config, st: State, k: nat, run: RunId, voice: bool)
    requires WellFormed(st) && k in st.checks
    ensures Unmoved(st, AfterGrant(cfg, st, k, run, voice), st.reloadAfterTurn)
  {
    GrantFields(cfg, st, k, run, voice);
  }

  lemma UnwindReloads(st: State, n: nat)
    requires n < |st.insts|
    ensures Unmoved(st, Unwound(st, n), st.reloadAfterTurn - if Owns(st, n) then {st.insts[n].sid} else {})
  {
  }

  lemma ExitReloads(st: State, n: nat)
    requires WellFormed(st) && n < |st.insts|
    ensures Unmoved(st, Exited(st, n), st.reloadAfterTurn - if Owns(st, n) then {st.insts[n].sid} else {})
  {
  }

  lemma RetryReloads(st: State, n: nat)
    requires n < |st.insts|
    ensures Unmoved(st, Retried(st, n), st.reloadAfterTurn)
  {
  }

  lemma BootReloads(cfg: Config, st: State, sid: Id)
    requires WellFormed(st) && sid in st.booting
    ensures Unmoved(st, BootSucceeds(st, sid), st.reloadAfterTurn)
    ensures Unmoved(st, BootFails(cfg, st, sid), st.reloadAfterTurn)
  {
  }

  lemma SendReloads(cfg: Config, st: State, k: nat)
    requires WellFormed(st) && k in st.sends
    ensures Unmoved(st, TagAfterBoot(st, k), st.reloadAfterTurn)
    ensures Unmoved(st, FreeAfterFailure(cfg, st.(sends := st.sends - {k}), st.sends[k].sid), st.reloadAfterTurn)
  {
  }

  /** The steps that reload nobody and mark nobody. */
  predicate NoReload(e: Event) {
    !e.Reload? && !e.ReloadAfterTurn? && !e.AskFp? && !e.Result?
  }

  /** What such a step leaves marked. */
  ghost function MarksAfter(st: State, e: Event): set<Id>
    requires WellFormed(st)
  {
    match e
    case Abort(sid) => st.reloadAfterTurn - {sid}
    case GiveUp(k) => st.reloadAfterTurn - if k in st.sends then {st.sends[k].sid} else {}
    case Unwind(n) => st.reloadAfterTurn - if n < |st.insts| && Owns(st, n) then {st.insts[n].sid} else {}
    case Exit(n) => st.reloadAfterTurn - if n < |st.insts| && Owns(st, n) then {st.insts[n].sid} else {}
    case _ => st.reloadAfterTurn
  }

  lemma OtherSteps(cfg: Config, st: State, e: Event)
    requires WellFormed(st) && Enabled(cfg, st, e) && NoReload(e)
    ensures Unmoved(st, Next(cfg, st, e), MarksAfter(st, e))
  {
    match e
    case Continue(k) => SegmentReloads(cfg, st, k);
    case GiveUp(k) => GiveUpReloads(cfg, st, k, st.sends[k].at.inst);
    case SendFailed(k) => SendReloads(cfg, st, k);
    case TagBoot(k) => SendReloads(cfg, st, k);
    case CheckGranted(k, run, voice) => GrantReloads(cfg, st, k, run, voice);
    case Abort(sid) => AbortReloads(st, sid);
    case BootDone(sid) => BootReloads(cfg, st, sid);
    case BootFailed(sid) => BootReloads(cfg, st, sid);
    case Unwind(n) => UnwindReloads(st, n);
    case Exit(n) => ExitReloads(st, n);
    case Retry(n) => RetryReloads(st, n);
    case _ =>
  }

  lemma UnmovedIs(st: State, e: Event, st': State)
    requires WellFormed(st) && NoReload(e) && Unmoved(st, st', MarksAfter(st, e))
    ensures ReloadsAre(st, e, st') && MarksAre(st, e, st')
  {
  }

  lemma AskingSteps(cfg: Config, st: State, e: Event)
    requires WellFormed(st) && Enabled(cfg, st, e) && !NoReload(e)
    ensures ReloadsAre(st, e, Next(cfg, st, e)) && MarksAre(st, e, Next(cfg, st, e))
  {
    match e
    case Result(n, o, k) => ResultReloads(cfg, st, n, o, k);
    case Reload(sid) => TellIs(st, sid);
    case ReloadAfterTurn(sid) => AfterTurnIs(st, sid);
    case AskFp(sid, fp) => AskedReloads(st, sid, fp);
  }

  /** Every step: who is told to reload, and who is marked to be told after the turn. */
  lemma StepReloads(cfg: Config, st: State, e: Event)
    requires WellFormed(st) && Enabled(cfg, st, e)
    ensures ReloadsAre(st, e, Next(cfg, st, e)) && MarksAre(st, e, Next(cfg, st, e))
  {
    if NoReload(e) {
      OtherSteps(cfg, st, e);
      UnmovedIs(st, e, Next(cfg, st, e));
    } else {
      AskingSteps(cfg, st, e);
    }
  }

  // ------------------------------------------------- a reload waits for the turn

  /**
   * A reload after the turn, or for another fingerprint, tells the live instance at once when no input
   * is outstanding; with one outstanding it tells nobody, and the session is marked.
   */
  lemma ReloadsWaitForTheTurn(cfg: Config, st: State, e: Event, n: nat)
    requires WellFormed(st) && Enabled(cfg, st, e) && n < |st.insts| && AsksReload(st, e, n)
    ensures var i, st' := st.insts[n], Next(cfg, st, e);
            && n < |st'.insts|
            && if i.book.pendingInputs == 0 || i.reloading then st'.insts[n].reloading
               else !st'.insts[n].reloading && i.sid in st'.reloadAfterTurn
    ensures forall m :: 0 <= m < |st.insts| && m != n ==>
              Next(cfg, st, e).insts[m].reloading == st.insts[m].reloading
  {
    StepReloads(cfg, st, e);
  }

  /** A call for a fingerprint that waits has told the idle instance to reload; refused in a turn, it has marked it. */
  lemma CallsReload(cfg: Config, st: State, sid: Id, fp: string)
    requires WellFormed(st) && WellFormed(Next(cfg, st, AskFp(sid, fp))) && sid in st.live
    ensures var now := Next(cfg, st, AskFp(sid, fp));
            && IsLive(now, sid, st.live[sid]) && st.live[sid] < |now.insts|
            && match AnswerNow(now, sid, fp)
               case Granted => now.insts[st.live[sid]].bootFp == Some(fp)
               case Waits(n) => n == st.live[sid] && now.insts[n].reloading
               case Refused => now.insts[st.live[sid]].reloading || sid in now.reloadAfterTurn
  {
    var now, n := Next(cfg, st, AskFp(sid, fp)), st.live[sid];
    StepLife(cfg, st, AskFp(sid, fp));
    StepKeepsFps(cfg, st, AskFp(sid, fp));
    StepMovesBooks(cfg, st, AskFp(sid, fp), n);
    StepReloads(cfg, st, AskFp(sid, fp));
    AnswersAtOnce(now, sid, fp);
  }

  /**
   * A mark goes exactly by an abort, a detachment, the end of the live instance, or a result that ends
   * the last input; and that result leaves its instance told to reload.
   */
  lemma MarkEndsExactly(cfg: Config, st: State, e: Event, sid: Id)
    requires WellFormed(st) && Enabled(cfg, st, e) && sid in st.reloadAfterTurn
    ensures var st' := Next(cfg, st, e);
            && (sid !in st'.reloadAfterTurn <==> EndsMark(st, e, sid))
            && (e.Result? && EndsMark(st, e, sid) ==> e.inst < |st'.insts| && st'.insts[e.inst].reloading)
  {
    StepReloads(cfg, st, e);
  }

  /** The live instance `n` is told to reload, or will be when its turn ends. */
  ghost predicate Promised(st: State, sid: Id, n: nat) {
    && IsLive(st, sid, n) && n < |st.insts| && st.insts[n].sid == sid
    && (st.insts[n].reloading || (sid in st.reloadAfterTurn && Outstanding(st, n)))
  }

  /** What takes a session's live instance away, or its reload. */
  predicate LetsOff(st: State, e: Event, sid: Id) {
    match e
    case Abort(s) => s == sid
    case GiveUp(k) => k in st.sends && st.sends[k].sid == sid
    case BootDone(s) => s == sid
    case Unwind(n) => n < |st.insts| && st.insts[n].sid == sid
    case Exit(n) => n < |st.insts| && st.insts[n].sid == sid
    case Retry(n) => n < |st.insts| && st.insts[n].sid == sid
    case _ => false
  }

  /** Inputs outstanding after events of the bookkeeping that are no result do not fall. */
  lemma {:induction false} PendingRises(b: T.Book, es: seq<T.Event>)
    requires forall i :: 0 <= i < |es| ==> !es[i].Result?
    ensures T.Run(b, es).pendingInputs >= b.pendingInputs
    decreases es
  {
    if es != [] {
      PendingRises(T.Step(b, es[0]), es[1..]);
    }
  }

  /** Across a step the inputs outstanding fall only by the instance's own result. */
  lemma PendingAcross(cfg: Config, st: State, e: Event, n: nat)
    requires WellFormed(st) && Enabled(cfg, st, e) && n < |st.insts|
    ensures var st', was := Next(cfg, st, e), st.insts[n].book.pendingInputs;
            && n < |st'.insts| && st'.insts[n].sid == st.insts[n].sid
            && if e.Result? && e.inst == n then
                 st'.insts[n].book.pendingInputs ==
                   (if was > 0 then was - 1 else 0) + if ChecksAtOnce(cfg, st, n, e.outcome) then 1 else 0
               else st'.insts[n].book.pendingInputs >= was
  {
    SidsStay(cfg, st, e, n);
    StepMovesBooks(cfg, st, e, n);
    if e.Result? && e.inst == n {
      ResultPending(st.insts[n].book);
      assert BookEvents(cfg, st, e, n) == if ChecksAtOnce(cfg, st, n, e.outcome) then [T.Result, CHECK] else [T.Result];
    } else {
      OthersAreNoResults(cfg, st, e, n);
      PendingRises(st.insts[n].book, BookEvents(cfg, st, e, n));
    }
  }

  lemma ResultPending(b: T.Book)
    ensures var was := if b.pendingInputs > 0 then b.pendingInputs - 1 else 0;
            T.Run(b, [T.Result]).pendingInputs == was && T.Run(b, [T.Result, CHECK]).pendingInputs == was + 1
  {
    RunsEvents(b, T.Result, CHECK);
  }

  lemma OthersAreNoResults(cfg: Config, st: State, e: Event, n: nat)
    requires WellFormed(st) && Enabled(cfg, st, e) && n < |st.insts| && !(e.Result? && e.inst == n)
    ensures forall i :: 0 <= i < |BookEvents(cfg, st, e, n)| ==> !BookEvents(cfg, st, e, n)[i].Result?
  {
  }

  lemma SidsStay(cfg: Config, st: State, e: Event, n: nat)
    requires WellFormed(st) && Enabled(cfg, st, e) && n < |st.insts|
    ensures n < |Next(cfg, st, e).insts| && Next(cfg, st, e).insts[n].sid == st.insts[n].sid
  {
    if e.Result? {
      ResultFields(cfg, st, e.inst, e.outcome, e.key, Deferred(st, e.inst));
    } else {
      var m, c := StepCause(cfg, st, e);
      InstanceAcross(st, Next(cfg, st, e), m, c, n);
    }
  }

  lemma LiveAcross(cfg: Config, st: State, e: Event, sid: Id, n: nat)
    requires WellFormed(st) && Enabled(cfg, st, e) && IsLive(st, sid, n) && !LetsOff(st, e, sid)
    ensures IsLive(Next(cfg, st, e), sid, n)
  {
    StepLife(cfg, st, e);
  }

  lemma StepKeepsPromise(cfg: Config, st: State, e: Event, sid: Id, n: nat)
    requires WellFormed(st) && Enabled(cfg, st, e) && Promised(st, sid, n) && !LetsOff(st, e, sid)
    ensures Promised(Next(cfg, st, e), sid, n)
  {
    LiveAcross(cfg, st, e, sid, n);
    PendingAcross(cfg, st, e, n);
    StepReloads(cfg, st, e);
    assert EndsMark(st, e, sid) ==> e.Result? && e.inst < |st.insts|;
    assert e.Result? && st.insts[e.inst].sid == sid ==> e.inst == n;
  }

  /** None of the run's steps takes the session's live instance away, or its reload. */
  ghost predicate NeverLetOff(cfg: Config, st: State, es: seq<Event>, sid: Id)
    requires Sound(cfg, st) && Possible(cfg, st, es)
    decreases es
  {
    es == [] ||
    (StepSound(cfg, st, es[0]);
     !LetsOff(st, es[0], sid) && NeverLetOff(cfg, Next(cfg, st, es[0]), es[1..], sid))
  }

  /**
   * A promised reload is kept over every run in which nothing takes the instance away: whenever it has
   * no input outstanding it has been told to reload.
   */
  lemma {:induction false} PromiseIsKept(cfg: Config, st: State, es: seq<Event>, sid: Id, n: nat)
    requires Sound(cfg, st) && Possible(cfg, st, es) && NeverLetOff(cfg, st, es, sid)
    requires Promised(st, sid, n)
    ensures var end := Run(cfg, st, es);
            Promised(end, sid, n) && (!Outstanding(end, n) ==> end.insts[n].reloading)
    decreases es
  {
    if es != [] {
      StepSound(cfg, st, es[0]);
      StepKeepsPromise(cfg, st, es[0], sid, n);
      PromiseIsKept(cfg, Next(cfg, st, es[0]), es[1..], sid, n);
    }
  }

  // --------------------------------------------- no turn in flight loses its input

  /** An instance told to reload, whose input is closed, has no input outstanding. */
  ghost predicate TurnsKeepInput(st: State) {
    forall n :: 0 <= n < |st.insts| && st.insts[n].reloading ==> st.insts[n].book.pendingInputs == 0
  }

  /**
   * The steps that close the input of a turn: a plain reload in the middle of one, a restart after a
   * closed stream with more than one input outstanding, and an unbudgeted check pushed by a result into
   * an instance already told to reload.
   */
  predicate Cuts(cfg: Config, st: State, e: Event) {
    match e
    case Reload(sid) => sid in st.live && Outstanding(st, st.live[sid])
    case Result(n, o, _) =>
      n < |st.insts| &&
      var i := st.insts[n];
      || (o.StreamClosed? && o.restart && i.book.pendingInputs > 1)
      || (!cfg.budgeted && o.Succeeded? && o.wantsCheck && !i.inAutoEvolve && i.reloading
          && i.sid !in st.reloadAfterTurn)
    case _ => false
  }

  /** An instance told to reload is given nothing but an unbudgeted check. */
  lemma ReloadingTakesNoInput(cfg: Config, st: State, e: Event, n: nat)
    requires WellFormed(st) && Enabled(cfg, st, e) && n < |st.insts| && st.insts[n].reloading && !e.Result?
    ensures n < |Next(cfg, st, e).insts|
    ensures Next(cfg, st, e).insts[n].book.pendingInputs == st.insts[n].book.pendingInputs
  {
    StepMovesBooks(cfg, st, e, n);
    if e.TagBoot? {
      RunsEvents(st.insts[n].book, T.BootTag(if st.sends[e.key].run.Some? then st.sends[e.key].run.value else 0),
        T.Result);
    } else {
      assert BookEvents(cfg, st, e, n) == [];
    }
  }

  /** And one told by this step is given nothing by it. */
  lemma RaisedTakesNoInput(cfg: Config, st: State, e: Event, n: nat)
    requires WellFormed(st) && Enabled(cfg, st, e) && n < |st.insts| && Raises(st, e, n) && !e.Result?
    ensures n < |Next(cfg, st, e).insts|
    ensures Next(cfg, st, e).insts[n].book.pendingInputs == st.insts[n].book.pendingInputs
  {
    StepMovesBooks(cfg, st, e, n);
    assert BookEvents(cfg, st, e, n) == [];
  }

  lemma ResultCuts(cfg: Config, st: State, e: Event)
    requires WellFormed(st) && Enabled(cfg, st, e) && e.Result? && TurnsKeepInput(st)
    ensures TurnsKeepInput(Next(cfg, st, e)) <==> !Cuts(cfg, st, e)
  {
    var st', m := Next(cfg, st, e), e.inst;
    StepReloads(cfg, st, e);
    ResultFields(cfg, st, m, e.outcome, e.key, Deferred(st, m));
    PendingAcross(cfg, st, e, m);
    assert |st'.insts| == |st.insts| && forall n :: 0 <= n < |st.insts| && n != m ==> st'.insts[n] == st.insts[n];
    assert TurnsKeepInput(st') <==> !st'.insts[m].reloading || st'.insts[m].book.pendingInputs == 0;
  }

  /** A step keeps every turn its input exactly when it is none of these. */
  lemma TurnsKeepInputExactly(cfg: Config, st: State, e: Event)
    requires WellFormed(st) && Enabled(cfg, st, e) && TurnsKeepInput(st)
    ensures TurnsKeepInput(Next(cfg, st, e)) <==> !Cuts(cfg, st, e)
  {
    var st' := Next(cfg, st, e);
    if e.Result? {
      ResultCuts(cfg, st, e);
    } else {
      StepReloads(cfg, st, e);
      forall n | 0 <= n < |st.insts| && st'.insts[n].reloading
        ensures st'.insts[n].book.pendingInputs == st.insts[n].book.pendingInputs
      {
        if st.insts[n].reloading {
          ReloadingTakesNoInput(cfg, st, e, n);
        } else {
          RaisedTakesNoInput(cfg, st, e, n);
        }
      }
      if Cuts(cfg, st, e) {
        assert st'.insts[st.live[e.sid]].reloading;
      }
    }
  }

  /** The run holds no plain reload, and no restart after a closed stream. */
  predicate Deferring(es: seq<Event>) {
    forall i :: 0 <= i < |es| ==> !es[i].Reload? && !(es[i].Result? && es[i].outcome == StreamClosed(true))
  }

  /**
   * Over every run of a budgeted manager that reloads only after turns, or for fingerprints, no instance
   * whose input was closed has an input outstanding.
   */
  lemma {:induction false} DeferredReloadsBreakNoTurn(cfg: Config, st: State, es: seq<Event>)
    requires cfg.budgeted && Sound(cfg, st) && Possible(cfg, st, es) && Deferring(es) && TurnsKeepInput(st)
    ensures TurnsKeepInput(Run(cfg, st, es))
    decreases es
  {
    if es != [] {
      StepSound(cfg, st, es[0]);
      TurnsKeepInputExactly(cfg, st, es[0]);
      DeferredReloadsBreakNoTurn(cfg, Next(cfg, st, es[0]), es[1..]);
    }
  }
}
