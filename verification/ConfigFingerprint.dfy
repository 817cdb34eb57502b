/**
 * `ensureConfigFp` (src/agent/manager.ts): when it answers true, the session
 * runs, boots and will boot under the fingerprint it was asked for, until
 * somebody asks for another one, unless a stale boot was in flight beside a
 * live instance.
 */
module ConfigFingerprint {
  import opened Common
  import opened AgentManager
  import opened FolderExclusion
  import opened CheckTurns
  import opened Lifecycle
  import C = WorkspaceClaims

  /**
   * What a call decides at once; `Waits`: an idle stale instance was told to reload and the call waits for it
   * to go.
   */
  datatype Verdict = Granted | Refused | Waits(inst: nat)

  /** The answer right after the call recorded the fingerprint and asked for a reload. */
  function AnswerNow(st: State, sid: Id, fp: string): Verdict
    requires WellFormed(st)
  {
    if sid !in st.live then (if sid in st.booting then Refused else Granted)
    else if st.insts[st.live[sid]].bootFp == Some(fp) then Granted
    else if st.insts[st.live[sid]].book.pendingInputs > 0 then Refused
    else Waits(st.live[sid])
  }

  /** The answer when the wait for instance `n` is over, or has lasted too long. */
  function AnswerLater(st: State, sid: Id, fp: string, n: nat): Verdict
    requires WellFormed(st)
  {
    if sid !in st.live then Granted
    else if st.live[sid] != n && st.insts[st.live[sid]].bootFp == Some(fp) then Granted
    else Refused
  }

  /** The live instance of the session, and the boot in flight for it, are under `fp`. */
  ghost predicate Under(st: State, sid: Id, fp: string) {
    && (sid in st.live ==> st.live[sid] < |st.insts| && st.insts[st.live[sid]].bootFp == Some(fp))
    && !StaleBoot(st, sid, fp)
  }

  /** A boot of the session is in flight under another fingerprint. */
  predicate StaleBoot(st: State, sid: Id, fp: string) {
    sid in st.booting && st.booting[sid].fp != Some(fp)
  }

  ghost predicate Asked(st: State, sid: Id, fp: string) {
    sid in st.desiredFp && st.desiredFp[sid] == fp
  }

  /** A call for `fp` waits for instance `n`: it is still live or replaced by one under `fp`, and so is every boot. */
  ghost predicate Awaits(st: State, sid: Id, fp: string, n: nat) {
    && Asked(st, sid, fp) && !StaleBoot(st, sid, fp)
    && (sid in st.live && st.live[sid] != n ==> st.live[sid] < |st.insts| && st.insts[st.live[sid]].bootFp == Some(fp))
  }

  // ------------------------------------------------------------ the answer holds

  /** Instances stay in place, under the fingerprint they booted with. */
  ghost predicate KeepsFps(st: State, st': State) {
    |st.insts| <= |st'.insts| && forall m :: 0 <= m < |st.insts| ==> st'.insts[m].bootFp == st.insts[m].bootFp
  }

  lemma StepKeepsFps(cfg: Config, st: State, e: Event)
    requires WellFormed(st) && Enabled(cfg, st, e)
    ensures KeepsFps(st, Next(cfg, st, e))
  {
    if e.Result? {
      ResultKeepsFps(cfg, st, e.inst, e.outcome, e.key);
    } else {
      var n, c := StepCause(cfg, st, e);
      forall m | 0 <= m < |st.insts|
        ensures m < |Next(cfg, st, e).insts| && Next(cfg, st, e).insts[m].bootFp == st.insts[m].bootFp
      {
        InstanceAcross(st, Next(cfg, st, e), n, c, m);
      }
    }
  }

  lemma ResultKeepsFps(cfg: Config, st: State, n: nat, o: Outcome, k: nat)
    requires WellFormed(st) && n < |st.insts|
    ensures KeepsFps(st, AfterResult(cfg, st, n, o, k))
  {
  }

  /** An instance goes live under the fingerprint its boot started with. */
  lemma BootedUnder(cfg: Config, st: State, e: Event)
    requires WellFormed(st) && Enabled(cfg, st, e) && e.BootDone?
    ensures |Next(cfg, st, e).insts| == |st.insts| + 1
    ensures Next(cfg, st, e).insts[|st.insts|].bootFp == st.booting[e.sid].fp
  {
  }

  lemma AwaitsKept(cfg: Config, st: State, e: Event, st': State, sid: Id, fp: string, n: nat)
    requires WellFormed(st) && KeepsFps(st, st') && LifeIs(st', LiveAfter(st, e), BootingAfter(cfg, st, e))
    requires e.BootDone? ==>
               e.sid in st.booting && |st.insts| < |st'.insts| && st'.insts[|st.insts|].bootFp == st.booting[e.sid].fp
    requires Awaits(st, sid, fp, n) && Asked(st', sid, fp)
    ensures Awaits(st', sid, fp, n)
    ensures Under(st, sid, fp) ==> Under(st', sid, fp)
  {
  }

  lemma StepKeepsAwaits(cfg: Config, st: State, e: Event, sid: Id, fp: string, n: nat)
    requires WellFormed(st) && Enabled(cfg, st, e)
    requires Awaits(st, sid, fp, n) && !(e.AskFp? && e.sid == sid && e.fp != fp)
    ensures Awaits(Next(cfg, st, e), sid, fp, n)
    ensures Under(st, sid, fp) ==> Under(Next(cfg, st, e), sid, fp)
  {
    StepLife(cfg, st, e);
    StepKeepsFps(cfg, st, e);
    if e.BootDone? {
      BootedUnder(cfg, st, e);
    }
    AwaitsKept(cfg, st, e, Next(cfg, st, e), sid, fp, n);
  }

  /** Nobody asks for another fingerprint of the session during the run. */
  predicate NoOtherAsk(es: seq<Event>, sid: Id, fp: string) {
    forall i :: 0 <= i < |es| && es[i].AskFp? && es[i].sid == sid ==> es[i].fp == fp
  }

  lemma {:induction false} RunKeepsAwaits(cfg: Config, st: State, es: seq<Event>, sid: Id, fp: string, n: nat)
    requires Sound(cfg, st) && Possible(cfg, st, es) && NoOtherAsk(es, sid, fp)
    requires Awaits(st, sid, fp, n)
    ensures Awaits(Run(cfg, st, es), sid, fp, n)
    ensures Under(st, sid, fp) ==> Under(Run(cfg, st, es), sid, fp)
    decreases es
  {
    if es != [] {
      StepSound(cfg, st, es[0]);
      StepKeepsAwaits(cfg, st, es[0], sid, fp, n);
      RunKeepsAwaits(cfg, Next(cfg, st, es[0]), es[1..], sid, fp, n);
    }
  }

  /**
   * Once a session is under the fingerprint last asked for, it stays so over every run in which nobody asks for
   * another.
   */
  lemma UnderStays(cfg: Config, st: State, es: seq<Event>, sid: Id, fp: string)
    requires Sound(cfg, st) && Possible(cfg, st, es) && NoOtherAsk(es, sid, fp)
    requires Asked(st, sid, fp) && Under(st, sid, fp)
    ensures Under(Run(cfg, st, es), sid, fp) && Asked(Run(cfg, st, es), sid, fp)
  {
    RunKeepsAwaits(cfg, st, es, sid, fp, 0);
  }

  lemma {:induction false} RunSound(cfg: Config, st: State, es: seq<Event>)
    requires Sound(cfg, st) && Possible(cfg, st, es)
    ensures Sound(cfg, Run(cfg, st, es)) && WellFormed(Run(cfg, st, es))
    decreases es
  {
    StepSound(cfg, st, Reload(""));
    if es != [] {
      StepSound(cfg, st, es[0]);
      RunSound(cfg, Next(cfg, st, es[0]), es[1..]);
    }
  }

  /**
   * A call for `fp` left the state `now`, `es` is what happens from then on, and the call answers
   * true: at once, or if it had to wait, by the state after `es`.
   */
  ghost predicate AnswersTrue(cfg: Config, now: State, es: seq<Event>, sid: Id, fp: string)
    requires Sound(cfg, now) && WellFormed(now) && Possible(cfg, now, es)
  {
    match AnswerNow(now, sid, fp)
    case Granted => true
    case Refused => false
    case Waits(n) => RunSound(cfg, now, es); AnswerLater(Run(cfg, now, es), sid, fp, n).Granted?
  }

  /** Nobody asks for another fingerprint, and the call answers true: then the session is under its fingerprint. */
  ghost predicate TrueIsUnder(cfg: Config, now: State, es: seq<Event>, sid: Id, fp: string)
    requires Sound(cfg, now) && WellFormed(now)
  {
    Possible(cfg, now, es) && NoOtherAsk(es, sid, fp) && AnswersTrue(cfg, now, es, sid, fp) ==>
      Under(Run(cfg, now, es), sid, fp)
  }

  lemma NoStaleBootIsUnder(cfg: Config, now: State, es: seq<Event>, sid: Id, fp: string)
    requires Sound(cfg, now) && WellFormed(now) && Asked(now, sid, fp) && !StaleBoot(now, sid, fp)
    ensures TrueIsUnder(cfg, now, es, sid, fp)
  {
    if Possible(cfg, now, es) && NoOtherAsk(es, sid, fp) && AnswersTrue(cfg, now, es, sid, fp) {
      var answer := AnswerNow(now, sid, fp);
      RunKeepsAwaits(cfg, now, es, sid, fp, if answer.Waits? then answer.inst else 0);
    }
  }

  lemma LoopEnds(st: State, n: nat)
    requires WellFormed(st) && n < |st.insts|
    ensures Unwound(st, n).insts == st.insts[n := st.insts[n].(evolveRun := None, unwound := true)]
    ensures Unwound(st, n).claims == st.claims && Unwound(st, n).checks == st.checks
  {
    var i := st.insts[n];
    assert FinishRun(Put(st, n, i), i.evolveRun).claims == st.claims;
  }

  lemma LoopEndsWell(st: State, n: nat)
    requires WellFormed(st) && n < |st.insts|
    ensures WellFormed(Unwound(st, n))
  {
    LoopEnds(st, n);
    UnwindLife(st, n);
  }

  lemma InstanceGoes(cfg: Config, st: State, sid: Id)
    requires WellFormed(st) && sid in st.live && st.insts[st.live[sid]].unwound
    ensures var n := st.live[sid];
            && Leads(cfg, st, [Exit(n)] + [], Exited(st, n)) && WellFormed(Exited(st, n))
            && sid !in Exited(st, n).live && Exited(st, n).booting == st.booting
  {
    var n := st.live[sid];
    C.ReleaseKeepsLinks(st.claims, sid);
    LeadsStep(cfg, st, Exit(n), Exited(st, n), [], Exited(st, n));
  }

  /** The live instance of a session can always go, and a boot in flight beside it is then all there is. */
  lemma LiveInstanceGoes(cfg: Config, now: State, sid: Id) returns (es: seq<Event>, end: State)
    requires WellFormed(now) && sid in now.live
    ensures Leads(cfg, now, es, end) && forall i :: 0 <= i < |es| ==> !es[i].AskFp?
    ensures WellFormed(end) && sid !in end.live && end.booting == now.booting
  {
    var n := now.live[sid];
    if now.insts[n].unwound {
      InstanceGoes(cfg, now, sid);
      es, end := [Exit(n)] + [], Exited(now, n);
    } else {
      var st := Unwound(now, n);
      LoopEnds(now, n);
      LoopEndsWell(now, n);
      UnwindLife(now, n);
      InstanceGoes(cfg, st, sid);
      es, end := [Unwind(n)] + ([Exit(n)] + []), Exited(st, n);
      LeadsStep(cfg, now, Unwind(n), st, [Exit(n)] + [], end);
    }
  }

  /** A call that meets a stale boot can answer true while it is in flight: at once, or after the live instance went. */
  lemma StaleBootIsNotUnder(cfg: Config, now: State, sid: Id, fp: string) returns (es: seq<Event>)
    requires Sound(cfg, now) && WellFormed(now) && StaleBoot(now, sid, fp) && !AnswerNow(now, sid, fp).Refused?
    ensures !TrueIsUnder(cfg, now, es, sid, fp)
  {
    if AnswerNow(now, sid, fp).Granted? {
      es := [];
    } else {
      var end;
      es, end := LiveInstanceGoes(cfg, now, sid);
      LeadsRuns(cfg, now, es, end);
    }
  }

  /**
   * A call that is not refused, whatever happens while it waits and after: every true answer, over
   * every run in which nobody asks for another fingerprint, leaves the session under the fingerprint
   * exactly when no boot under another one was in flight at the call.
   */
  lemma TrueMeansUnderExactly(cfg: Config, now: State, sid: Id, fp: string)
    requires Sound(cfg, now) && WellFormed(now) && Asked(now, sid, fp) && !AnswerNow(now, sid, fp).Refused?
    ensures (forall es: seq<Event> :: TrueIsUnder(cfg, now, es, sid, fp)) <==> !StaleBoot(now, sid, fp)
  {
    if StaleBoot(now, sid, fp) {
      var es := StaleBootIsNotUnder(cfg, now, sid, fp);
    } else {
      forall es: seq<Event>
        ensures TrueIsUnder(cfg, now, es, sid, fp)
      {
        NoStaleBootIsUnder(cfg, now, es, sid, fp);
      }
    }
  }

  /**
   * What a call answers at once: it is refused while a turn is in flight under another fingerprint, or
   * while a session that is not live boots; it waits for an idle instance under another fingerprint.
   */
  lemma AnswersAtOnce(st: State, sid: Id, fp: string)
    requires WellFormed(st)
    ensures var stale := sid in st.live && st.insts[st.live[sid]].bootFp != Some(fp);
            && (AnswerNow(st, sid, fp) == Refused <==>
                  (stale && TurnInFlight(st, sid)) || (sid !in st.live && sid in st.booting))
            && (AnswerNow(st, sid, fp).Waits? <==> stale && !TurnInFlight(st, sid))
            && (AnswerNow(st, sid, fp).Waits? ==> AnswerNow(st, sid, fp).inst == st.live[sid])
  {
  }

  /** Without a stale boot a call that waits answers true once the instance it waits for is gone, and not before. */
  lemma TrueOnceGone(cfg: Config, now: State, es: seq<Event>, sid: Id, fp: string)
    requires Sound(cfg, now) && WellFormed(now) && Asked(now, sid, fp) && !StaleBoot(now, sid, fp)
    requires AnswerNow(now, sid, fp).Waits? && Possible(cfg, now, es) && NoOtherAsk(es, sid, fp)
    ensures var n, end := AnswerNow(now, sid, fp).inst, Run(cfg, now, es);
            AnswersTrue(cfg, now, es, sid, fp) <==> !(sid in end.live && end.live[sid] == n)
  {
    RunSound(cfg, now, es);
    RunKeepsAwaits(cfg, now, es, sid, fp, AnswerNow(now, sid, fp).inst);
  }

  /** Such a call meets a stale boot only while its session boots beside a live instance. */
  lemma StaleBootsOverlap(now: State, sid: Id, fp: string)
    requires WellFormed(now) && !AnswerNow(now, sid, fp).Refused? && StaleBoot(now, sid, fp)
    ensures !NoOverlap(now)
  {
    assert sid in now.live && sid in now.booting;
  }
}
