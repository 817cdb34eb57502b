/**
 * Which instance of a session is live, and which boot of it is in flight, over the steps
 * of the manager (src/agent/manager.ts).
 */
module Lifecycle {
  import opened Common
  import opened AgentManager

  /** The live instances after a step. */
  ghost function LiveAfter(st: State, e: Event): map<Id, nat>
    requires WellFormed(st)
  {
    match e
    case GiveUp(k) =>
      if k in st.sends && GivesUpOnLive(st, k) then st.live - {st.sends[k].sid} else st.live
    case BootDone(sid) => st.live[sid := |st.insts|]
    case Exit(n) => if n < |st.insts| && Owns(st, n) then st.live - {st.insts[n].sid} else st.live
    case Retry(n) => if n < |st.insts| then st.live - {st.insts[n].sid} else st.live
    case _ => st.live
  }

  /** The instance that the send waits for is still the live one. */
  predicate GivesUpOnLive(st: State, k: nat)
    requires k in st.sends
  {
    st.sends[k].at.AwaitExit? && st.sends[k].sid in st.live && st.live[st.sends[k].sid] == st.sends[k].at.inst
  }

  /** A send that gives up goes on to boot, having no folder to ask for. */
  predicate GivesUpAndBoots(cfg: Config, st: State, k: nat)
    requires WellFormed(st) && k in st.sends && st.sends[k].at.AwaitExit?
  {
    !NeedsFolder(cfg, LetGo(st, st.sends[k].sid, st.sends[k].at.inst), st.sends[k].sid)
  }

  function BootFor(st: State, k: nat): Boot
    requires k in st.sends
  {
    var s := st.sends[k];
    Boot(s.synthetic, s.sender, Desired(st, s.sid), Some(k))
  }

  /** The boots in flight after a step. */
  ghost function BootingAfter(cfg: Config, st: State, e: Event): map<Id, Boot>
    requires WellFormed(st)
  {
    match e
    case Continue(k) =>
      if k in st.sends && StartsBoot(cfg, st, st.sends[k].sid)
      then st.booting[st.sends[k].sid := BootFor(st, k)] else st.booting
    case GiveUp(k) =>
      if k in st.sends && st.sends[k].at.AwaitExit? && GivesUpAndBoots(cfg, st, k)
      then st.booting[st.sends[k].sid := BootFor(st, k)] else st.booting
    case BootDone(sid) => st.booting - {sid}
    case BootFailed(sid) => st.booting - {sid}
    case Retry(n) =>
      if n < |st.insts| then
        var i := st.insts[n];
        st.booting[i.sid := Boot(i.firstSynthetic, i.firstSender, Desired(st, i.sid), None)]
      else st.booting
    case _ => st.booting
  }

  ghost predicate LifeIs(st: State, live: map<Id, nat>, booting: map<Id, Boot>) {
    st.live == live && st.booting == booting
  }

  /** Nobody went live, left or started to boot, and no fingerprint was asked for. */
  ghost predicate SameLife(st: State, st': State) {
    LifeIs(st', st.live, st.booting) && st'.desiredFp == st.desiredFp
  }

  lemma PartsLife(cfg: Config, st: State, k: nat, at: Place, n: nat)
    requires k in st.sends
    ensures SameLife(st, Park(st, k, at))
    ensures st.sends[k].sid in cfg.home ==> SameLife(st, AskFolder(cfg, st, k))
    ensures n < |st.insts| ==> SameLife(st, PushInput(st, k, n))
    ensures LifeIs(StartBoot(st, k), st.live, st.booting[st.sends[k].sid := BootFor(st, k)])
    ensures StartBoot(st, k).desiredFp == st.desiredFp
  {
  }

  lemma SegmentLife(cfg: Config, st: State, k: nat)
    requires WellFormed(st) && k in st.sends
    ensures SendSegment(cfg, st, k).desiredFp == st.desiredFp
    ensures LifeIs(SendSegment(cfg, st, k), st.live, BootingAfter(cfg, st, Continue(k)))
  {
    var sid := st.sends[k].sid;
    if sid in st.live {
      var n := st.live[sid];
      PartsLife(cfg, st, k, AwaitExit(n), n);
      if st.insts[n].checkEnded.Some? {
        PartsLife(cfg, st, k, AwaitCheck(n, st.insts[n].checkEnded.value), n);
      }
    } else {
      PartsLife(cfg, st, k, Ready, 0);
    }
  }

  lemma LetGoLife(st: State, sid: Id, n: nat)
    requires WellFormed(st)
    ensures var st' := LetGo(st, sid, n);
            && st'.booting == st.booting && st'.desiredFp == st.desiredFp && st'.sends == st.sends
            && st'.live == if sid in st.live && st.live[sid] == n then st.live - {sid} else st.live
  {
    if sid in st.live {
      DetachedLife(st, st.live[sid]);
    }
    FlagsLife(st, sid);
  }

  lemma DetachedLife(st: State, n: nat)
    requires WellFormed(st) && n < |st.insts|
    ensures LifeIs(Detached(st, n), st.live - {st.insts[n].sid}, st.booting)
    ensures Detached(st, n).desiredFp == st.desiredFp && Detached(st, n).sends == st.sends
  {
  }

  lemma GiveUpLife(cfg: Config, st: State, k: nat)
    requires WellFormed(st) && k in st.sends && st.sends[k].at.AwaitExit?
    ensures var st' := GivenUp(cfg, st, k, st.sends[k].at.inst);
            LifeIs(st', LiveAfter(st, GiveUp(k)), BootingAfter(cfg, st, GiveUp(k))) && st'.desiredFp == st.desiredFp
  {
    LetGoLife(st, st.sends[k].sid, st.sends[k].at.inst);
    AskOrBootLife(cfg, LetGo(st, st.sends[k].sid, st.sends[k].at.inst), k);
  }

  lemma AskOrBootLife(cfg: Config, st: State, k: nat)
    requires k in st.sends
    ensures var st' := AskOrBoot(cfg, st, k);
            && st'.live == st.live && st'.desiredFp == st.desiredFp
            && st'.booting == if NeedsFolder(cfg, st, st.sends[k].sid) then st.booting
                              else st.booting[st.sends[k].sid := BootFor(st, k)]
  {
  }

  lemma ResultLife(cfg: Config, st: State, n: nat, o: Outcome, k: nat)
    requires WellFormed(st) && n < |st.insts|
    ensures SameLife(st, AfterResult(cfg, st, n, o, k))
  {
    ResultFields(cfg, st, n, o, k, Deferred(st, n));
  }

  lemma GrantLife(cfg: Config, st: State, k: nat, run: RunId, voice: bool)
    requires WellFormed(st) && k in st.checks
    ensures SameLife(st, AfterGrant(cfg, st, k, run, voice))
  {
    GrantFields(cfg, st, k, run, voice);
  }

  lemma UnwindLife(st: State, n: nat)
    requires n < |st.insts|
    ensures SameLife(st, Unwound(st, n))
  {
  }

  lemma FailureLife(cfg: Config, st: State, sid: Id)
    requires WellFormed(st)
    ensures SameLife(st, FreeAfterFailure(cfg, st, sid))
  {
  }

  lemma TagLife(st: State, k: nat)
    requires WellFormed(st) && k in st.sends
    ensures SameLife(st, TagAfterBoot(st, k))
  {
  }

  lemma FlagsLife(st: State, sid: Id)
    requires WellFormed(st)
    ensures SameLife(st, Reloaded(st, sid))
    ensures SameLife(st, ReloadedAfterTurn(st, sid))
    ensures SameLife(st, Aborted(st, sid)) && Aborted(st, sid).sends == st.sends
  {
  }

  lemma AskedLife(st: State, sid: Id, fp: string)
    requires WellFormed(st)
    ensures LifeIs(FpAsked(st, sid, fp), st.live, st.booting)
    ensures FpAsked(st, sid, fp).desiredFp == st.desiredFp[sid := fp]
  {
    FlagsLife(st.(desiredFp := st.desiredFp[sid := fp]), sid);
  }

  lemma BootLife(cfg: Config, st: State, sid: Id)
    requires WellFormed(st) && sid in st.booting
    ensures LifeIs(BootSucceeds(st, sid), st.live[sid := |st.insts|], st.booting - {sid})
    ensures LifeIs(BootFails(cfg, st, sid), st.live, st.booting - {sid})
    ensures BootSucceeds(st, sid).desiredFp == st.desiredFp && BootFails(cfg, st, sid).desiredFp == st.desiredFp
  {
  }

  lemma ExitLife(cfg: Config, st: State, n: nat)
    requires WellFormed(st) && n < |st.insts|
    ensures LifeIs(Exited(st, n), LiveAfter(st, Exit(n)), st.booting) && Exited(st, n).desiredFp == st.desiredFp
  {
  }

  lemma RetryLife(cfg: Config, st: State, n: nat)
    requires WellFormed(st) && n < |st.insts|
    ensures LifeIs(Retried(st, n), LiveAfter(st, Retry(n)), BootingAfter(cfg, st, Retry(n)))
    ensures Retried(st, n).desiredFp == st.desiredFp
  {
  }

  /** The live instances and the boots of every step. */
  lemma StepLife(cfg: Config, st: State, e: Event)
    requires WellFormed(st) && Enabled(cfg, st, e)
    ensures LifeIs(Next(cfg, st, e), LiveAfter(st, e), BootingAfter(cfg, st, e))
    ensures Next(cfg, st, e).desiredFp == if e.AskFp? then st.desiredFp[e.sid := e.fp] else st.desiredFp
  {
    match e
    case Continue(k) => SegmentLife(cfg, st, k);
    case GiveUp(k) => GiveUpLife(cfg, st, k);
    case SendFailed(k) => FailureLife(cfg, st.(sends := st.sends - {k}), st.sends[k].sid);
    case TagBoot(k) => TagLife(st, k);
    case Result(n, o, k) => ResultLife(cfg, st, n, o, k);
    case CheckGranted(k, run, voice) => GrantLife(cfg, st, k, run, voice);
    case Unwind(n) => UnwindLife(st, n);
    case Reload(sid) => FlagsLife(st, sid);
    case ReloadAfterTurn(sid) => FlagsLife(st, sid);
    case AskFp(sid, fp) => AskedLife(st, sid, fp);
    case Abort(sid) => FlagsLife(st, sid);
    case BootDone(sid) => BootLife(cfg, st, sid);
    case BootFailed(sid) => BootLife(cfg, st, sid);
    case Exit(n) => ExitLife(cfg, st, n);
    case Retry(n) => RetryLife(cfg, st, n);
    case _ =>
  }

  /**
   * Whatever is given up on, a boot that is not a retry is started only by a session that holds its
   * folder, or has none.
   */
  lemma BootsStartHeld(cfg: Config, st: State, e: Event, sid: Id)
    requires WellFormed(st) && Enabled(cfg, st, e) && !e.Retry?
    requires sid !in st.booting && sid in Next(cfg, st, e).booting
    ensures !NeedsFolder(cfg, Next(cfg, st, e), sid)
  {
    StepLife(cfg, st, e);
    if e.GiveUp? {
      BootTakesNoFolder(cfg, LetGo(st, sid, st.sends[e.key].at.inst), e.key);
    } else {
      assert SendSegment(cfg, st, e.key) == StartBoot(st, e.key);
    }
  }

  lemma BootTakesNoFolder(cfg: Config, st: State, k: nat)
    requires k in st.sends && !NeedsFolder(cfg, st, st.sends[k].sid)
    ensures !NeedsFolder(cfg, AskOrBoot(cfg, st, k), st.sends[k].sid)
  {
  }

  // ------------------------------------------------------ two instances of a session

  /** No session has a live instance and a boot in flight at once. */
  ghost predicate NoOverlap(st: State) {
    forall s :: s in st.booting ==> s !in st.live
  }

  /** A send gives up on an instance that is no longer the live one, and boots beside the one that is. */
  predicate BootsBeside(cfg: Config, st: State, e: Event)
    requires WellFormed(st)
  {
    e.GiveUp? && e.key in st.sends && st.sends[e.key].at.AwaitExit?
    && st.sends[e.key].sid in st.live && !GivesUpOnLive(st, e.key) && GivesUpAndBoots(cfg, st, e.key)
  }

  /** A step lets a session boot beside a live instance exactly when it gives up on one that is not the live one. */
  lemma OverlapExactly(cfg: Config, st: State, e: Event)
    requires WellFormed(st) && Enabled(cfg, st, e) && NoOverlap(st)
    ensures NoOverlap(Next(cfg, st, e)) <==> !BootsBeside(cfg, st, e)
  {
    StepLife(cfg, st, e);
    if BootsBeside(cfg, st, e) {
      assert st.sends[e.key].sid in BootingAfter(cfg, st, e) && st.sends[e.key].sid in LiveAfter(st, e);
    }
  }

  /** An instance leaves by its own doing: it exits, it is given up on, or it retries. */
  predicate Leaves(st: State, e: Event, m: nat)
  {
    match e
    case Exit(n) => n == m
    case Retry(n) => n == m
    case GiveUp(k) => k in st.sends && st.sends[k].at == AwaitExit(m)
    case _ => false
  }

  /** The retry of an instance that is not the live one takes the live one's place. */
  predicate RetriesOver(st: State, e: Event, sid: Id) {
    e.Retry? && e.inst < |st.insts| && st.insts[e.inst].sid == sid
  }

  /** The two ways past a live instance: another one of the session retries, or is given up on by a send that boots. */
  predicate Overtakes(cfg: Config, st: State, e: Event, sid: Id)
    requires WellFormed(st)
  {
    RetriesOver(st, e, sid) || (BootsBeside(cfg, st, e) && st.sends[e.key].sid == sid)
  }

  /** A live instance that does not leave stays the live one exactly when no other instance of its session retries. */
  lemma LiveStaysExactly(cfg: Config, st: State, e: Event, sid: Id)
    requires WellFormed(st) && Enabled(cfg, st, e)
    requires sid in st.live && sid !in st.booting && !Leaves(st, e, st.live[sid])
    ensures (sid in Next(cfg, st, e).live && Next(cfg, st, e).live[sid] == st.live[sid]) <==> !RetriesOver(st, e, sid)
  {
    StepLife(cfg, st, e);
  }

  /** And stays the only one exactly when the step does not overtake it. */
  lemma AloneExactly(cfg: Config, st: State, e: Event, sid: Id)
    requires WellFormed(st) && Enabled(cfg, st, e)
    requires sid in st.live && sid !in st.booting && !Leaves(st, e, st.live[sid])
    ensures var st' := Next(cfg, st, e);
            (sid in st'.live && st'.live[sid] == st.live[sid] && sid !in st'.booting) <==> !Overtakes(cfg, st, e, sid)
  {
    LiveStaysExactly(cfg, st, e, sid);
    StepLife(cfg, st, e);
  }
}
