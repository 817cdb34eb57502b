/**
 * The sends of the manager (src/agent/manager.ts): when one is over, and what ends the
 * waits of the others.
 */
module Sends {
  import opened Common
  import opened AgentManager
  import opened CheckTurns
  import opened FolderExclusion
  import opened InputHistories
  import opened Lifecycle
  import C = WorkspaceClaims

  // --------------------------------------------------------------- when a send is over

  /** The send's input is in a queue, its boot is done, or it failed. */
  ghost predicate IsOver(cfg: Config, st: State, e: Event, k: nat)
    requires WellFormed(st) && Enabled(cfg, st, e) && k in st.sends
  {
    match e
    case Continue(j) => j == k && Pushes(cfg, st, k)
    case SendFailed(j) => j == k
    case TagBoot(j) => j == k
    case BootFailed(sid) => st.booting[sid].send == Some(k)
    case _ => false
  }

  /** Which sends there are after a step. */
  ghost predicate SendsAre(cfg: Config, st: State, e: Event, st': State)
    requires WellFormed(st) && Enabled(cfg, st, e)
  {
    forall k :: k in st'.sends <==> (k in st.sends && !IsOver(cfg, st, e, k)) || (e.NewSend? && e.key == k)
  }

  /** The other sends are where they were. */
  ghost predicate OthersStay(st: State, st': State, k: nat) {
    forall j :: j in st.sends && j != k ==> j in st'.sends && st'.sends[j] == st.sends[j]
  }

  lemma PartsKeepOthers(cfg: Config, st: State, k: nat, at: Place, n: nat)
    requires k in st.sends
    ensures OthersStay(st, Park(st, k, at), k) && OthersStay(st, StartBoot(st, k), k)
    ensures st.sends[k].sid in cfg.home ==> OthersStay(st, AskFolder(cfg, st, k), k)
    ensures n < |st.insts| ==> OthersStay(st, PushInput(st, k, n), k)
  {
  }

  lemma PartsSends(cfg: Config, st: State, k: nat, at: Place, n: nat)
    requires k in st.sends
    ensures Park(st, k, at).sends.Keys == st.sends.Keys
    ensures st.sends[k].sid in cfg.home ==> AskFolder(cfg, st, k).sends.Keys == st.sends.Keys
    ensures n < |st.insts| ==> PushInput(st, k, n).sends.Keys == st.sends.Keys - {k}
    ensures StartBoot(st, k).sends.Keys == st.sends.Keys
  {
  }

  lemma SegmentSends(cfg: Config, st: State, k: nat)
    requires WellFormed(st) && k in st.sends
    ensures SendSegment(cfg, st, k).sends.Keys == st.sends.Keys - if Pushes(cfg, st, k) then {k} else {}
  {
    var sid := st.sends[k].sid;
    if sid in st.live {
      var n := st.live[sid];
      PartsSends(cfg, st, k, AwaitExit(n), n);
      if st.insts[n].checkEnded.Some? {
        PartsSends(cfg, st, k, AwaitCheck(n, st.insts[n].checkEnded.value), n);
      }
    } else {
      PartsSends(cfg, st, k, Ready, 0);
    }
  }

  lemma GiveUpSends(cfg: Config, st: State, k: nat, n: nat)
    requires WellFormed(st) && k in st.sends
    ensures GivenUp(cfg, st, k, n).sends.Keys == st.sends.Keys
  {
    LetGoLife(st, st.sends[k].sid, n);
  }

  lemma BootSends(cfg: Config, st: State, sid: Id)
    requires WellFormed(st) && sid in st.booting
    ensures BootSucceeds(st, sid).sends.Keys == st.sends.Keys
    ensures BootFails(cfg, st, sid).sends.Keys ==
            st.sends.Keys - if st.booting[sid].send.Some? then {st.booting[sid].send.value} else {}
  {
  }

  lemma EndSends(cfg: Config, st: State, k: nat)
    requires WellFormed(st) && k in st.sends
    ensures TagAfterBoot(st, k).sends.Keys == st.sends.Keys - {k}
    ensures FreeAfterFailure(cfg, st.(sends := st.sends - {k}), st.sends[k].sid).sends.Keys == st.sends.Keys - {k}
  {
  }

  lemma FlagSends(st: State, sid: Id, fp: string)
    requires WellFormed(st)
    ensures Reloaded(st, sid).sends == st.sends && ReloadedAfterTurn(st, sid).sends == st.sends
    ensures FpAsked(st, sid, fp).sends == st.sends && Aborted(st, sid).sends == st.sends
  {
  }

  lemma InstanceSends(st: State, n: nat)
    requires WellFormed(st) && n < |st.insts|
    ensures Unwound(st, n).sends == st.sends && Exited(st, n).sends == st.sends && Retried(st, n).sends == st.sends
  {
  }

  lemma TurnSends(cfg: Config, st: State, e: Event)
    requires WellFormed(st) && Enabled(cfg, st, e) && (e.Result? || e.CheckGranted? || e.CheckRefused? || e.IdleClosed?)
    ensures Next(cfg, st, e).sends == st.sends
  {
    match e
    case Result(n, o, k) => ResultFields(cfg, st, n, o, k, Deferred(st, n));
    case CheckGranted(k, run, voice) => GrantFields(cfg, st, k, run, voice);
    case _ =>
  }

  lemma SendSteps(cfg: Config, st: State, e: Event)
    requires WellFormed(st) && Enabled(cfg, st, e)
    requires e.NewSend? || e.Continue? || e.Wake? || e.GiveUp? || e.SendFailed? || e.TagBoot? || e.BootDone?
             || e.BootFailed?
    ensures SendsAre(cfg, st, e, Next(cfg, st, e))
  {
    match e
    case Continue(k) => SegmentSends(cfg, st, k);
    case GiveUp(k) => GiveUpSends(cfg, st, k, st.sends[k].at.inst);
    case SendFailed(k) => EndSends(cfg, st, k);
    case TagBoot(k) => EndSends(cfg, st, k);
    case BootDone(sid) => BootSends(cfg, st, sid);
    case BootFailed(sid) => BootSends(cfg, st, sid);
    case _ =>
  }

  lemma OtherSteps(cfg: Config, st: State, e: Event)
    requires WellFormed(st) && Enabled(cfg, st, e)
    requires !(e.NewSend? || e.Continue? || e.Wake? || e.GiveUp? || e.SendFailed? || e.TagBoot? || e.BootDone?
               || e.BootFailed?)
    ensures Next(cfg, st, e).sends == st.sends
  {
    match e
    case Reload(sid) => FlagSends(st, sid, "");
    case ReloadAfterTurn(sid) => FlagSends(st, sid, "");
    case AskFp(sid, fp) => FlagSends(st, sid, fp);
    case Abort(sid) => FlagSends(st, sid, "");
    case Unwind(n) => InstanceSends(st, n);
    case Exit(n) => InstanceSends(st, n);
    case Retry(n) => InstanceSends(st, n);
    case _ => TurnSends(cfg, st, e);
  }

  /**
   * A send is over exactly when its input went into a live instance's queue, when the boot that carries
   * its input has been tagged or has failed, or when it failed itself.
   */
  lemma SendsEndExactly(cfg: Config, st: State, e: Event)
    requires WellFormed(st) && Enabled(cfg, st, e)
    ensures SendsAre(cfg, st, e, Next(cfg, st, e))
  {
    if || e.NewSend? || e.Continue? || e.Wake? || e.GiveUp? || e.SendFailed? || e.TagBoot? || e.BootDone?
       || e.BootFailed?
    {
      SendSteps(cfg, st, e);
    } else {
      OtherSteps(cfg, st, e);
    }
  }

  // ------------------------------------------------------------------ what ends a wait

  /** A check in flight is known by the number of an input the instance was given. */
  ghost predicate Numbered(i: Instance) {
    i.checkEnded.Some? ==> i.checkEnded.value <= i.book.inputSeq
  }

  ghost predicate AllNumbered(st: State) {
    forall n :: 0 <= n < |st.insts| ==> Numbered(st.insts[n])
  }

  /** A check that starts is known by the number of its own input, the last one given. */
  lemma ChecksAreNumbered(cfg: Config, st: State, e: Event, n: nat)
    requires WellFormed(st) && Enabled(cfg, st, e) && n < |st.insts|
    ensures var i, st' := st.insts[n], Next(cfg, st, e);
            && n < |st'.insts| && st'.insts[n].book.inputSeq >= i.book.inputSeq
            && (st'.insts[n].checkEnded.Some? && st'.insts[n].checkEnded != i.checkEnded ==>
                  st'.insts[n].checkEnded.value == st'.insts[n].book.inputSeq == i.book.inputSeq + 1)
  {
    if e.Result? {
      ResultFields(cfg, st, e.inst, e.outcome, e.key, Deferred(st, e.inst));
    } else {
      var m, c := StepCause(cfg, st, e);
      InstanceAcross(st, Next(cfg, st, e), m, c, n);
    }
  }

  lemma StepKeepsNumbers(cfg: Config, st: State, e: Event)
    requires WellFormed(st) && Enabled(cfg, st, e) && AllNumbered(st)
    ensures AllNumbered(Next(cfg, st, e))
  {
    InstancesGrow(cfg, st, e);
    forall n | 0 <= n < |Next(cfg, st, e).insts|
      ensures Numbered(Next(cfg, st, e).insts[n])
    {
      if n < |st.insts| {
        ChecksAreNumbered(cfg, st, e, n);
      }
    }
  }

  lemma {:induction false} NumbersOverRuns(cfg: Config, st: State, es: seq<Event>)
    requires Sound(cfg, st) && Possible(cfg, st, es) && AllNumbered(st)
    ensures AllNumbered(Run(cfg, st, es))
    decreases es
  {
    if es != [] {
      StepSound(cfg, st, es[0]);
      StepKeepsNumbers(cfg, st, es[0]);
      NumbersOverRuns(cfg, Next(cfg, st, es[0]), es[1..]);
    }
  }

  /** An instance is born with the input it was booted for, under its boot's fingerprint, and nothing else. */
  lemma BornClean(cfg: Config, st: State, sid: Id)
    requires WellFormed(st) && sid in st.booting
    ensures var st', b := Next(cfg, st, BootDone(sid)), st.booting[sid];
            && |st'.insts| == |st.insts| + 1
            && var i := st'.insts[|st.insts|];
               && i.sid == sid && i.bootFp == b.fp && i.book.pendingInputs == i.book.inputSeq == 1
               && i.book.inputSynthetic == [b.synthetic]
               && i.checkEnded == None && i.evolveRun == None && !i.inAutoEvolve
               && !i.reloading && !i.closing && !i.aborted && !i.unwound && !i.exited
  {
  }

  /** The flag of a check turn outlives its result only when that closed the stream, or is to be tried again. */
  lemma CheckFlagAfterResult(cfg: Config, st: State, n: nat, o: Outcome, k: nat)
    requires WellFormed(st) && Enabled(cfg, st, Result(n, o, k))
    ensures var i, st' := st.insts[n], Next(cfg, st, Result(n, o, k));
            && |st'.insts| == |st.insts|
            && if i.inAutoEvolve then
                 st'.insts[n].inAutoEvolve <==> o.StreamClosed? || o == Failed(true)
               else st'.insts[n].inAutoEvolve <==> ChecksAtOnce(cfg, st, n, o)
  {
    ResultFields(cfg, st, n, o, k, Deferred(st, n));
  }

  lemma GoneNow(st: State, n: nat)
    requires WellFormed(st) && n < |st.insts|
    ensures n < |Exited(st, n).insts| && Exited(st, n).insts[n].exited
    ensures n < |Retried(st, n).insts| && Retried(st, n).insts[n].exited
  {
  }

  lemma CheckOver(cfg: Config, st: State, n: nat, o: Outcome, k: nat)
    requires WellFormed(st) && n < |st.insts| && Numbered(st.insts[n]) && st.insts[n].checkEnded.Some?
    ensures n < |AfterResult(cfg, st, n, o, k).insts|
    ensures AfterResult(cfg, st, n, o, k).insts[n].checkEnded != st.insts[n].checkEnded
  {
    ResultFields(cfg, st, n, o, k, Deferred(st, n));
  }

  /** A send that waits for a check can go on once its result comes, or its instance is gone. */
  lemma CheckWaitsEnd(cfg: Config, st: State, e: Event, k: nat, n: nat, no: nat)
    requires WellFormed(st) && Enabled(cfg, st, e) && AllNumbered(st) && WellFormed(Next(cfg, st, e))
    requires k in st.sends && st.sends[k].at == AwaitCheck(n, no)
    requires n < |st.insts| && st.insts[n].checkEnded == Some(no)
    requires (e.Result? || e.Exit? || e.Retry?) && e.inst == n
    ensures Enabled(cfg, Next(cfg, st, e), Wake(k))
  {
    OtherSteps(cfg, st, e);
    if e.Result? {
      CheckOver(cfg, st, n, e.outcome, e.key);
    } else {
      GoneNow(st, n);
    }
  }

  /** And one that waits for an instance to go, once that has left. */
  lemma ExitWaitsEnd(cfg: Config, st: State, e: Event, k: nat, n: nat)
    requires WellFormed(st) && Enabled(cfg, st, e) && WellFormed(Next(cfg, st, e))
    requires k in st.sends && st.sends[k].at == AwaitExit(n) && n < |st.insts|
    requires (e.Exit? || e.Retry?) && e.inst == n
    ensures Enabled(cfg, Next(cfg, st, e), Wake(k))
  {
    OtherSteps(cfg, st, e);
    GoneNow(st, n);
  }

  // ------------------------------------------------------------------ sends that boot

  /** A send whose input a boot carries is out of the loop and pushes nothing: it waits for the boot, then its tag. */
  lemma BootingSendsStay(cfg: Config, st: State, e: Event, k: nat)
    requires WellFormed(st) && Enabled(cfg, st, e)
    requires k in st.sends && (st.sends[k].at == Booting || st.sends[k].at == AwaitTag) && k in Next(cfg, st, e).sends
    ensures var at := Next(cfg, st, e).sends[k].at;
            || at == st.sends[k].at
            || (at == AwaitTag && e.BootDone? && st.booting[e.sid].send == Some(k))
  {
    if e.NewSend? || e.Continue? || e.Wake? || e.GiveUp? {
      QueueingSteps(cfg, st, e, k);
    } else if e.SendFailed? || e.TagBoot? || e.BootDone? || e.BootFailed? {
      BootingSteps(cfg, st, e, k);
    } else {
      OtherSteps(cfg, st, e);
    }
  }

  lemma QueueingSteps(cfg: Config, st: State, e: Event, k: nat)
    requires WellFormed(st) && Enabled(cfg, st, e) && (e.NewSend? || e.Continue? || e.Wake? || e.GiveUp?)
    requires k in st.sends && (st.sends[k].at == Booting || st.sends[k].at == AwaitTag)
    ensures k in Next(cfg, st, e).sends && Next(cfg, st, e).sends[k] == st.sends[k]
  {
    assert e.key != k;
    match e
    case Continue(j) => OthersInPlace(cfg, st, j);
    case GiveUp(j) =>
      LetGoLife(st, st.sends[j].sid, st.sends[j].at.inst);
      AskedInPlace(cfg, LetGo(st, st.sends[j].sid, st.sends[j].at.inst), j, k);
    case _ =>
  }

  lemma AskedInPlace(cfg: Config, st: State, j: nat, k: nat)
    requires j in st.sends && k in st.sends && j != k
    ensures k in AskOrBoot(cfg, st, j).sends && AskOrBoot(cfg, st, j).sends[k] == st.sends[k]
  {
  }

  lemma OthersInPlace(cfg: Config, st: State, j: nat)
    requires WellFormed(st) && j in st.sends
    ensures OthersStay(st, SendSegment(cfg, st, j), j)
  {
    var sid := st.sends[j].sid;
    if sid in st.live {
      var n := st.live[sid];
      PartsKeepOthers(cfg, st, j, AwaitExit(n), n);
      if st.insts[n].checkEnded.Some? {
        PartsKeepOthers(cfg, st, j, AwaitCheck(n, st.insts[n].checkEnded.value), n);
      }
    } else {
      PartsKeepOthers(cfg, st, j, Ready, 0);
    }
  }

  lemma BootedInPlace(cfg: Config, st: State, sid: Id, k: nat)
    requires WellFormed(st) && sid in st.booting && k in st.sends
    ensures var s := BootSucceeds(st, sid).sends;
            k in s && s[k].at == if st.booting[sid].send == Some(k) then AwaitTag else st.sends[k].at
    ensures k in BootFails(cfg, st, sid).sends ==> BootFails(cfg, st, sid).sends[k] == st.sends[k]
  {
  }

  lemma EndedInPlace(cfg: Config, st: State, j: nat, k: nat)
    requires WellFormed(st) && j in st.sends && k in st.sends
    ensures k in TagAfterBoot(st, j).sends ==> TagAfterBoot(st, j).sends[k] == st.sends[k]
    ensures var st' := FreeAfterFailure(cfg, st.(sends := st.sends - {j}), st.sends[j].sid);
            k in st'.sends ==> st'.sends[k] == st.sends[k]
  {
  }

  lemma BootingSteps(cfg: Config, st: State, e: Event, k: nat)
    requires WellFormed(st) && Enabled(cfg, st, e) && (e.SendFailed? || e.TagBoot? || e.BootDone? || e.BootFailed?)
    requires k in st.sends && k in Next(cfg, st, e).sends
    ensures var at := Next(cfg, st, e).sends[k].at;
            at == st.sends[k].at || (at == AwaitTag && e.BootDone? && st.booting[e.sid].send == Some(k))
  {
    match e
    case BootDone(sid) => BootedInPlace(cfg, st, sid, k);
    case BootFailed(sid) => BootedInPlace(cfg, st, sid, k);
    case SendFailed(j) => EndedInPlace(cfg, st, j, k);
    case TagBoot(j) => EndedInPlace(cfg, st, j, k);
  }

  /** A failed send frees its folder, unless the session has a turn in flight or boots; then nothing is freed. */
  lemma FailureFreesFolder(cfg: Config, st: State, k: nat)
    requires WellFormed(st) && Enabled(cfg, st, SendFailed(k)) && C.Valid(st.claims)
    requires var sid := st.sends[k].sid;
             && sid in cfg.home && Holder(cfg, st, sid) == Some(sid)
             && sid in st.claims.held && st.claims.held[sid] == cfg.home[sid]
    ensures var sid, st' := st.sends[k].sid, Next(cfg, st, SendFailed(k));
            if TurnInFlight(st, sid) || sid in st.booting then st'.claims == st.claims
            else C.HolderOf(st'.claims, cfg.home[sid]) != Some(sid)
  {
    C.FreeLets(st.claims, st.sends[k].sid, cfg.home[st.sends[k].sid]);
  }
}
