/**
 * Folder exclusion: over every run of the manager, at most one live session of a
 * proactive folder has an input outstanding, and it is the folder's holder.
 * `w` names the sessions the statements are about: all sessions with a home
 * folder, those of one folder, or none.
 */
module FolderExclusion {
  import opened Common
  import opened AgentManager
  import opened Lifecycle
  import C = WorkspaceClaims
  import T = TurnBook

  ghost predicate Busy(insts: seq<Instance>, live: map<Id, nat>, booting: map<Id, Boot>, s: Id) {
    s in booting || (s in live && live[s] < |insts| && insts[live[s]].book.pendingInputs > 0)
  }

  ghost predicate Mans(w: map<Id, C.Dir>, claims: C.State, s: Id) {
    s in w ==> C.HolderOf(claims, w[s]) == Some(s)
  }

  /** Every session that boots, or has an input outstanding, holds its folder. */
  ghost predicate Manned(
      w: map<Id, C.Dir>, insts: seq<Instance>, live: map<Id, nat>, booting: map<Id, Boot>, claims: C.State)
  {
    && LiveOk(insts, live)
    && (forall s :: Busy(insts, live, booting, s) ==> Mans(w, claims, s))
  }

  ghost predicate Within(w: map<Id, C.Dir>, home: map<Id, C.Dir>) {
    forall s :: s in w ==> s in home && home[s] == w[s]
  }

  ghost predicate Exclusive(cfg: Config, w: map<Id, C.Dir>, st: State) {
    && ChecksOk(st.insts, st.checks)
    && Within(w, cfg.home)
    && C.Homed(st.claims, cfg.home)
    && Manned(w, st.insts, st.live, st.booting, st.claims)
  }

  /** Freeing the folder of a session keeps exclusion exactly when the session is not busy there. */
  lemma FreeKeepsExactly(
      home: map<Id, C.Dir>, w: map<Id, C.Dir>, insts: seq<Instance>, live: map<Id, nat>, booting: map<Id, Boot>,
      claims: C.State, sid: Id)
    requires Within(w, home) && C.Homed(claims, home) && Manned(w, insts, live, booting, claims)
    ensures C.Homed(C.Released(claims, sid), home)
    ensures Manned(w, insts, live, booting, C.Released(claims, sid)) <==> !(Busy(insts, live, booting, sid) && sid in w)
  {
    C.ReleaseKeepsHomed(claims, home, sid);
    if !(Busy(insts, live, booting, sid) && sid in w) {
      forall s | Busy(insts, live, booting, s) ensures Mans(w, C.Released(claims, sid), s) {
        assert Mans(w, claims, s);
      }
    }
  }

  lemma AcquireKeeps(
      home: map<Id, C.Dir>, w: map<Id, C.Dir>, insts: seq<Instance>, live: map<Id, nat>, booting: map<Id, Boot>,
      claims: C.State, sid: Id)
    requires Within(w, home) && C.Homed(claims, home) && Manned(w, insts, live, booting, claims) && sid in home
    ensures C.Homed(C.Acquired(claims, home[sid], sid), home)
    ensures Manned(w, insts, live, booting, C.Acquired(claims, home[sid], sid))
    ensures C.HolderOf(claims, home[sid]) in {None, Some(sid)} ==> Mans(w, C.Acquired(claims, home[sid], sid), sid)
  {
    C.AcquireKeepsHomed(claims, home, sid);
    forall s | Busy(insts, live, booting, s) ensures Mans(w, C.Acquired(claims, home[sid], sid), s) {
      assert Mans(w, claims, s);
    }
  }

  lemma PutKeeps(
      w: map<Id, C.Dir>, insts: seq<Instance>, live: map<Id, nat>, booting: map<Id, Boot>, claims: C.State, n: nat,
      i: Instance)
    requires Manned(w, insts, live, booting, claims) && n < |insts|
    requires i.sid == insts[n].sid && (i.exited ==> insts[n].sid !in live || live[insts[n].sid] != n)
    requires i.book.pendingInputs > 0 ==> Mans(w, claims, i.sid)
    ensures Manned(w, insts[n := i], live, booting, claims)
  {
    forall s | Busy(insts[n := i], live, booting, s) ensures Mans(w, claims, s) {
      assert Busy(insts, live, booting, s) || s == i.sid;
    }
  }

  lemma LeaveKeeps(
      w: map<Id, C.Dir>, insts: seq<Instance>, live: map<Id, nat>, booting: map<Id, Boot>, claims: C.State, sid: Id)
    requires Manned(w, insts, live, booting, claims)
    ensures Manned(w, insts, live - {sid}, booting, claims)
    ensures Manned(w, insts, live, booting - {sid}, claims)
  {
    forall s | Busy(insts, live - {sid}, booting, s) || Busy(insts, live, booting - {sid}, s)
      ensures Mans(w, claims, s)
    {
      assert Busy(insts, live, booting, s);
    }
  }

  lemma BootKeeps(
      w: map<Id, C.Dir>, insts: seq<Instance>, live: map<Id, nat>, booting: map<Id, Boot>, claims: C.State, sid: Id,
      b: Boot)
    requires Manned(w, insts, live, booting, claims)
    ensures Manned(w, insts, live, booting[sid := b], claims) <==> Mans(w, claims, sid)
  {
    assert Busy(insts, live, booting[sid := b], sid);
    forall s | Busy(insts, live, booting[sid := b], s) && s != sid ensures Mans(w, claims, s) {
      assert Busy(insts, live, booting, s);
    }
  }

  lemma ComesAliveKeeps(
      w: map<Id, C.Dir>, insts: seq<Instance>, live: map<Id, nat>, booting: map<Id, Boot>, claims: C.State,
      i: Instance)
    requires Manned(w, insts, live, booting, claims) && i.sid in booting && !i.exited
    ensures Manned(w, insts + [i], live[i.sid := |insts|], booting - {i.sid}, claims)
  {
    forall s | Busy(insts + [i], live[i.sid := |insts|], booting - {i.sid}, s) ensures Mans(w, claims, s) {
      assert Busy(insts, live, booting, s);
    }
  }

  /**
   * Replacing an instance by a later state of itself keeps exclusion, if its session then still holds what
   * it needs.
   */
  lemma PutKeepsExclusive(cfg: Config, w: map<Id, C.Dir>, st: State, n: nat, i: Instance)
    requires Exclusive(cfg, w, st) && n < |st.insts|
    requires i.sid == st.insts[n].sid && (i.exited ==> !Owns(st, n))
    requires i.book.pendingInputs > 0 ==> Mans(w, st.claims, i.sid)
    ensures Exclusive(cfg, w, Put(st, n, i))
  {
    PutKeeps(w, st.insts, st.live, st.booting, st.claims, n, i);
  }

  lemma PushInputKeepsExclusive(cfg: Config, w: map<Id, C.Dir>, st: State, k: nat, n: nat)
    requires Exclusive(cfg, w, st) && k in st.sends && n < |st.insts|
    requires st.insts[n].sid == st.sends[k].sid && Mans(w, st.claims, st.sends[k].sid)
    requires st.insts[n].exited ==> !Owns(st, n)
    ensures Exclusive(cfg, w, PushInput(st, k, n))
  {
    var s, i := st.sends[k], st.insts[n];
    PutKeepsExclusive(cfg, w, st, n, i.(book := T.Step(i.book, T.Sent(s.synthetic, s.sender, s.run))));
  }

  lemma AskFolderKeepsExclusive(cfg: Config, w: map<Id, C.Dir>, st: State, k: nat)
    requires Exclusive(cfg, w, st) && k in st.sends && st.sends[k].sid in cfg.home
    ensures Exclusive(cfg, w, AskFolder(cfg, st, k))
  {
    AcquireKeeps(cfg.home, w, st.insts, st.live, st.booting, st.claims, st.sends[k].sid);
  }

  lemma StartBootKeepsExclusive(cfg: Config, w: map<Id, C.Dir>, st: State, k: nat)
    requires Exclusive(cfg, w, st) && k in st.sends
    requires Mans(w, st.claims, st.sends[k].sid)
    ensures Exclusive(cfg, w, StartBoot(st, k))
  {
    var s := st.sends[k];
    BootKeeps(w, st.insts, st.live, st.booting, st.claims, s.sid,
      Boot(s.synthetic, s.sender, Desired(st, s.sid), Some(k)));
  }

  lemma ParkKeepsExclusive(cfg: Config, w: map<Id, C.Dir>, st: State, k: nat, at: Place)
    requires Exclusive(cfg, w, st) && k in st.sends
    ensures Exclusive(cfg, w, Park(st, k, at))
  {
  }

  lemma SegmentKeepsExclusive(cfg: Config, w: map<Id, C.Dir>, st: State, k: nat)
    requires Exclusive(cfg, w, st) && k in st.sends && WellFormed(st)
    ensures Exclusive(cfg, w, SendSegment(cfg, st, k))
  {
    var sid := st.sends[k].sid;
    if sid in st.live && (st.insts[st.live[sid]].reloading || st.insts[st.live[sid]].closing) {
      ParkKeepsExclusive(cfg, w, st, k, AwaitExit(st.live[sid]));
    } else if sid in st.live && st.insts[st.live[sid]].checkEnded.Some? {
      ParkKeepsExclusive(cfg, w, st, k, AwaitCheck(st.live[sid], st.insts[st.live[sid]].checkEnded.value));
    } else if NeedsFolder(cfg, st, sid) {
      AskFolderKeepsExclusive(cfg, w, st, k);
    } else if sid in st.live {
      PushInputKeepsExclusive(cfg, w, st, k, st.live[sid]);
    } else {
      StartBootKeepsExclusive(cfg, w, st, k);
    }
  }

  /** Detaching the instance of a session that boots as well hands its folder to whoever waits for it. */
  predicate HandsOver(w: map<Id, C.Dir>, st: State, sid: Id, n: nat) {
    && sid in st.live && st.live[sid] == n && sid in st.booting
    && sid in w && w[sid] in st.claims.folders && st.claims.folders[w[sid]].waiters != []
  }

  lemma AbortKeepsExclusive(cfg: Config, w: map<Id, C.Dir>, st: State, sid: Id)
    requires Exclusive(cfg, w, st) && WellFormed(st)
    ensures Exclusive(cfg, w, Aborted(st, sid))
  {
    if sid in st.live {
      FlagsKeepExclusive(cfg, w, st.(reloadAfterTurn := st.reloadAfterTurn - {sid}), st.live[sid],
        st.insts[st.live[sid]].(aborted := true));
    }
  }

  lemma AskOrBootKeepsExclusive(cfg: Config, w: map<Id, C.Dir>, st: State, k: nat)
    requires Exclusive(cfg, w, st) && k in st.sends
    ensures Exclusive(cfg, w, AskOrBoot(cfg, st, k))
  {
    if NeedsFolder(cfg, st, st.sends[k].sid) {
      AskFolderKeepsExclusive(cfg, w, st, k);
    } else {
      StartBootKeepsExclusive(cfg, w, st, k);
    }
  }

  /** The components that a detached instance leaves, with the folder not yet freed. */
  lemma DetachLeaves(cfg: Config, w: map<Id, C.Dir>, st: State, n: nat)
    requires Exclusive(cfg, w, st) && n < |st.insts| && Owns(st, n)
    ensures var sid := st.insts[n].sid;
            && Manned(w, st.insts[n := st.insts[n].(aborted := true)], st.live - {sid}, st.booting, st.claims)
            && (Busy(st.insts[n := st.insts[n].(aborted := true)], st.live - {sid}, st.booting, sid) <==>
                sid in st.booting)
  {
    var i := st.insts[n];
    LeaveKeeps(w, st.insts, st.live, st.booting, st.claims, i.sid);
    assert i.book.pendingInputs > 0 ==> Busy(st.insts, st.live, st.booting, i.sid);
    PutKeeps(w, st.insts, st.live - {i.sid}, st.booting, st.claims, n, i.(aborted := true));
  }

  lemma DetachKeepsExactly(cfg: Config, w: map<Id, C.Dir>, st: State, n: nat)
    requires Exclusive(cfg, w, st) && n < |st.insts| && Owns(st, n)
    ensures Exclusive(cfg, w, Detached(st, n)) <==> !(st.insts[n].sid in st.booting && st.insts[n].sid in w)
  {
    DetachLeaves(cfg, w, st, n);
    FreeKeepsExactly(cfg.home, w, st.insts[n := st.insts[n].(aborted := true)], st.live - {st.insts[n].sid}, st.booting,
      st.claims, st.insts[n].sid);
  }

  /** A session that frees its folder and asks for it at once holds it exactly when nobody was waiting. */
  lemma ReleasedAndAsked(claims: C.State, home: map<Id, C.Dir>, sid: Id)
    requires C.Homed(claims, home) && sid in home && C.HolderOf(claims, home[sid]) == Some(sid)
    ensures var again := C.Acquired(C.Released(claims, sid), home[sid], sid);
            && C.Homed(again, home)
            && (C.HolderOf(again, home[sid]) == Some(sid) <==> claims.folders[home[sid]].waiters == [])
            && forall d :: d != home[sid] ==> C.HolderOf(again, d) == C.HolderOf(claims, d)
  {
    C.ReleaseKeepsHomed(claims, home, sid);
    C.AcquireKeepsHomed(C.Released(claims, sid), home, sid);
  }

  /** A booting session whose instance is detached asks for the folder it has just freed. */
  lemma DetachAndAskExactly(cfg: Config, w: map<Id, C.Dir>, st: State, k: nat, n: nat)
    requires Exclusive(cfg, w, st) && WellFormed(st) && n < |st.insts| && Owns(st, n)
    requires k in st.sends && st.sends[k].sid == st.insts[n].sid && st.insts[n].sid in st.booting
    requires st.insts[n].sid in w
    ensures NeedsFolder(cfg, Detached(st, n), st.insts[n].sid)
    ensures Exclusive(cfg, w, AskFolder(cfg, Detached(st, n), k)) <==> !HandsOver(w, st, st.insts[n].sid, n)
  {
    var sid, st' := st.insts[n].sid, AskFolder(cfg, Detached(st, n), k);
    DetachLeaves(cfg, w, st, n);
    assert Busy(st.insts, st.live, st.booting, sid);
    ReleasedAndAsked(st.claims, cfg.home, sid);
    C.ReleaseKeepsHomed(st.claims, cfg.home, sid);
    var insts, live := st.insts[n := st.insts[n].(aborted := true)], st.live - {sid};
    forall s | Busy(insts, live, st.booting, s) && s != sid ensures Mans(w, st'.claims, s) {
      assert Mans(w, st.claims, s);
    }
    assert Busy(insts, live, st.booting, sid);
  }

  /** A send that gives up keeps exclusion exactly when it hands no folder over. */
  lemma GiveUpKeepsExactly(cfg: Config, w: map<Id, C.Dir>, st: State, k: nat, n: nat)
    requires Exclusive(cfg, w, st) && WellFormed(st) && k in st.sends
    requires !NeedsFolder(cfg, LetGo(st, st.sends[k].sid, n), st.sends[k].sid) ==> st.sends[k].sid !in st.booting
    ensures Exclusive(cfg, w, GivenUp(cfg, st, k, n)) <==> !HandsOver(w, st, st.sends[k].sid, n)
  {
    var sid := st.sends[k].sid;
    if !(sid in st.live && st.live[sid] == n) {
      AbortKeepsExclusive(cfg, w, st, sid);
      AskOrBootKeepsExclusive(cfg, w, Aborted(st, sid), k);
    } else if sid in st.booting && sid in w {
      DetachAndAskExactly(cfg, w, st, k, n);
    } else {
      DetachKeepsExactly(cfg, w, st, n);
      AskOrBootKeepsExclusive(cfg, w, Detached(st, n), k);
    }
  }

  lemma FailureKeepsExclusive(cfg: Config, w: map<Id, C.Dir>, st: State, sid: Id)
    requires Exclusive(cfg, w, st)
    ensures Exclusive(cfg, w, FreeAfterFailure(cfg, st, sid))
    ensures sid !in st.live && sid !in st.booting ==> Exclusive(cfg, w, FreeFolder(st, sid))
  {
    FreeKeepsExactly(cfg.home, w, st.insts, st.live, st.booting, st.claims, sid);
  }

  lemma BootSucceedsKeepsExclusive(cfg: Config, w: map<Id, C.Dir>, st: State, sid: Id)
    requires Exclusive(cfg, w, st) && sid in st.booting
    ensures Exclusive(cfg, w, BootSucceeds(st, sid))
  {
    ComesAliveKeeps(w, st.insts, st.live, st.booting, st.claims, NewInstance(sid, st.booting[sid]));
  }

  lemma BootFailsKeepsExclusive(cfg: Config, w: map<Id, C.Dir>, st: State, sid: Id)
    requires Exclusive(cfg, w, st) && sid in st.booting
    ensures Exclusive(cfg, w, BootFails(cfg, st, sid))
  {
    var b := st.booting[sid];
    LeaveKeeps(w, st.insts, st.live, st.booting, st.claims, sid);
    var st1 := st.(booting := st.booting - {sid});
    FailureKeepsExclusive(cfg, w, st1, sid);
    if b.send.Some? {
      FailureKeepsExclusive(cfg, w, st1.(sends := st.sends - {b.send.value}), sid);
    }
  }

  /** A result with no input outstanding that is followed at once by an unbudgeted check. */
  predicate StrayCheck(cfg: Config, st: State, n: nat, o: Outcome)
    requires n < |st.insts|
  {
    && st.insts[n].book.pendingInputs == 0 && !cfg.budgeted
    && ChecksAfter(st.insts[n], o, st.insts[n].sid in st.reloadAfterTurn)
  }

  /** A result that leaves no input outstanding frees the session's folder. */
  predicate FreesFolder(cfg: Config, st: State, n: nat, o: Outcome)
    requires n < |st.insts|
  {
    var i := st.insts[n];
    T.Ended(i.book).pendingInputs == 0 && !(ChecksAfter(i, o, i.sid in st.reloadAfterTurn) && !cfg.budgeted)
  }

  /**
   * The only ways out of exclusion: a retry, or a check after a stray result, of a session that does
   * not hold its folder; and a folder freed by a result, an exit or a send that gives up while
   * another boot of its session is in flight.
   */
  ghost predicate Guarded(cfg: Config, w: map<Id, C.Dir>, st: State, e: Event) {
    match e
    case Retry(n) => n < |st.insts| ==> Mans(w, st.claims, st.insts[n].sid)
    case Result(n, o, _) =>
      n < |st.insts| ==>
        && (StrayCheck(cfg, st, n, o) ==> Mans(w, st.claims, st.insts[n].sid))
        && (FreesFolder(cfg, st, n, o) ==> !(st.insts[n].sid in st.booting && st.insts[n].sid in w))
    case Exit(n) => n < |st.insts| && Owns(st, n) ==> !(st.insts[n].sid in st.booting && st.insts[n].sid in w)
    case GiveUp(k) =>
      k in st.sends && st.sends[k].at.AwaitExit? ==> !HandsOver(w, st, st.sends[k].sid, st.sends[k].at.inst)
    case _ => true
  }

  /** What a result leaves of its instance. */
  lemma ResultInstanceIs(cfg: Config, st: State, n: nat, o: Outcome, i': Instance)
    requires WellFormed(st) && n < |st.insts|
    requires i' == ResultInstance(cfg, st.insts[n], o, Deferred(st, n))
    ensures i'.sid == st.insts[n].sid && i'.exited == st.insts[n].exited
    ensures st.insts[n].book.pendingInputs == 0 ==> (i'.book.pendingInputs > 0 <==> StrayCheck(cfg, st, n, o))
    ensures i'.book.pendingInputs == 0 <==> FreesFolder(cfg, st, n, o)
  {
  }

  /** What a result leaves of the components that exclusion is about. */
  lemma ResultComponents(cfg: Config, st: State, n: nat, o: Outcome, k: nat, i': Instance)
    requires WellFormed(st) && n < |st.insts|
    requires i' == ResultInstance(cfg, st.insts[n], o, Deferred(st, n))
    requires i'.sid == st.insts[n].sid
    ensures var st' := AfterResult(cfg, st, n, o, k);
            && st'.insts == st.insts[n := i'] && st'.live == st.live && st'.booting == st.booting
            && st'.claims == (if i'.book.pendingInputs > 0 then st.claims else C.Released(st.claims, i'.sid))
            && (st'.checks == st.checks
                || st'.checks == st.checks[k := CheckStart(i'.sid, n, st.insts[n].book.inputSeq)])
  {
  }

  lemma ResultKeepsManned(
      home: map<Id, C.Dir>, w: map<Id, C.Dir>, insts: seq<Instance>, live: map<Id, nat>, booting: map<Id, Boot>,
      claims: C.State, n: nat, i: Instance, claims': C.State)
    requires Within(w, home) && C.Homed(claims, home) && Manned(w, insts, live, booting, claims)
    requires n < |insts| && insts[n].sid in live && live[insts[n].sid] == n
    requires i.sid == insts[n].sid && i.exited == insts[n].exited
    requires claims' == if i.book.pendingInputs > 0 then claims else C.Released(claims, i.sid)
    ensures C.Homed(claims', home)
    ensures Manned(w, insts[n := i], live, booting, claims') <==>
            if i.book.pendingInputs > 0 then Mans(w, claims, i.sid) else !(i.sid in booting && i.sid in w)
  {
    if i.book.pendingInputs == 0 {
      PutKeeps(w, insts, live, booting, claims, n, i);
      FreeKeepsExactly(home, w, insts[n := i], live, booting, claims, i.sid);
    } else if Mans(w, claims, i.sid) {
      PutKeeps(w, insts, live, booting, claims, n, i);
    } else {
      assert Busy(insts[n := i], live, booting, i.sid);
    }
  }

  lemma ComponentsKeepExclusive(cfg: Config, w: map<Id, C.Dir>, st: State, st': State, n: nat, i': Instance, k: nat)
    requires Exclusive(cfg, w, st) && n < |st.insts| && Owns(st, n)
    requires i'.sid == st.insts[n].sid && i'.exited == st.insts[n].exited
    requires st'.insts == st.insts[n := i'] && st'.live == st.live && st'.booting == st.booting
    requires st'.claims == if i'.book.pendingInputs > 0 then st.claims else C.Released(st.claims, i'.sid)
    requires st'.checks == st.checks || exists q :: st'.checks == st.checks[k := CheckStart(i'.sid, n, q)]
    ensures Exclusive(cfg, w, st') <==>
            if i'.book.pendingInputs > 0 then Mans(w, st.claims, i'.sid) else !(i'.sid in st.booting && i'.sid in w)
  {
    ResultKeepsManned(cfg.home, w, st.insts, st.live, st.booting, st.claims, n, i', st'.claims);
    assert ChecksOk(st'.insts, st'.checks);
  }

  /** The guard of a result, in terms of what is left of its instance. */
  lemma GuardedResult(cfg: Config, w: map<Id, C.Dir>, st: State, n: nat, o: Outcome, k: nat, i': Instance)
    requires Exclusive(cfg, w, st) && n < |st.insts| && Owns(st, n)
    requires st.insts[n].book.pendingInputs == 0 ==> (i'.book.pendingInputs > 0 <==> StrayCheck(cfg, st, n, o))
    requires i'.book.pendingInputs == 0 <==> FreesFolder(cfg, st, n, o)
    ensures var sid := st.insts[n].sid;
            Guarded(cfg, w, st, Result(n, o, k)) <==>
            if i'.book.pendingInputs > 0 then Mans(w, st.claims, sid) else !(sid in st.booting && sid in w)
  {
    if st.insts[n].book.pendingInputs > 0 {
      assert Busy(st.insts, st.live, st.booting, st.insts[n].sid);
    }
  }

  lemma ResultKeepsExclusive(cfg: Config, w: map<Id, C.Dir>, st: State, n: nat, o: Outcome, k: nat)
    requires Exclusive(cfg, w, st) && WellFormed(st) && n < |st.insts| && Owns(st, n)
    ensures Exclusive(cfg, w, AfterResult(cfg, st, n, o, k)) <==> Guarded(cfg, w, st, Result(n, o, k))
  {
    var i := st.insts[n];
    var i' := ResultInstance(cfg, i, o, Deferred(st, n));
    var st' := AfterResult(cfg, st, n, o, k);
    ResultInstanceIs(cfg, st, n, o, i');
    ResultComponents(cfg, st, n, o, k, i');
    ComponentsKeepExclusive(cfg, w, st, st', n, i', k);
    GuardedResult(cfg, w, st, n, o, k, i');
  }

  lemma ForgetCheckKeepsExclusive(
      cfg: Config, w: map<Id, C.Dir>, st: State, k: nat, started: set<RunId>, finished: seq<RunId>)
    requires Exclusive(cfg, w, st)
    ensures Exclusive(cfg, w, st.(checks := st.checks - {k}, started := started, finished := finished))
  {
  }

  lemma CheckPushKeepsExclusive(cfg: Config, w: map<Id, C.Dir>, st: State, n: nat, i: Instance)
    requires Exclusive(cfg, w, st) && n < |st.insts|
    requires i.sid == st.insts[n].sid && i.exited == st.insts[n].exited == false
    requires i.sid in cfg.home ==> C.HolderOf(st.claims, cfg.home[i.sid]) in {None, Some(i.sid)}
    ensures var claims' := if i.sid in cfg.home then C.Acquired(st.claims, cfg.home[i.sid], i.sid) else st.claims;
            Exclusive(cfg, w, Put(st, n, i).(claims := claims'))
  {
    var claims' := if i.sid in cfg.home then C.Acquired(st.claims, cfg.home[i.sid], i.sid) else st.claims;
    if i.sid in cfg.home {
      AcquireKeeps(cfg.home, w, st.insts, st.live, st.booting, st.claims, i.sid);
    }
    PutKeeps(w, st.insts, st.live, st.booting, claims', n, i);
  }

  lemma GrantKeepsExclusive(cfg: Config, w: map<Id, C.Dir>, st: State, k: nat, run: RunId, voice: bool)
    requires Exclusive(cfg, w, st) && WellFormed(st) && k in st.checks
    ensures Exclusive(cfg, w, AfterGrant(cfg, st, k, run, voice))
  {
    var c := st.checks[k];
    ForgetCheckKeepsExclusive(cfg, w, st, k, st.started + {run}, st.finished);
    ForgetCheckKeepsExclusive(cfg, w, st, k, st.started + {run}, st.finished + [run]);
    if PushesCheck(cfg, st, c, voice) {
      CheckPushKeepsExclusive(cfg, w, st.(checks := st.checks - {k}, started := st.started + {run}), c.inst,
        WithCheck(st.insts[c.inst].(evolveRun := Some(run))));
    }
  }

  lemma FlagsKeepExclusive(cfg: Config, w: map<Id, C.Dir>, st: State, n: nat, i: Instance)
    requires Exclusive(cfg, w, st) && n < |st.insts|
    requires i.sid == st.insts[n].sid && i.book == st.insts[n].book && (i.exited ==> !Owns(st, n) || st.insts[n].exited)
    ensures Exclusive(cfg, w, Put(st, n, i))
  {
    if Owns(st, n) && i.book.pendingInputs > 0 {
      assert Busy(st.insts, st.live, st.booting, i.sid);
    }
    forall s | Busy(st.insts[n := i], st.live, st.booting, s) ensures Mans(w, st.claims, s) {
      assert Busy(st.insts, st.live, st.booting, s);
    }
  }

  lemma ReloadKeepsExclusive(cfg: Config, w: map<Id, C.Dir>, st: State, sid: Id)
    requires Exclusive(cfg, w, st) && WellFormed(st)
    ensures Exclusive(cfg, w, Reloaded(st, sid))
  {
    if sid in st.live {
      FlagsKeepExclusive(cfg, w, st, st.live[sid], st.insts[st.live[sid]].(reloading := true));
    }
  }

  lemma ReloadAfterTurnKeepsExclusive(cfg: Config, w: map<Id, C.Dir>, st: State, sid: Id)
    requires Exclusive(cfg, w, st) && WellFormed(st)
    ensures Exclusive(cfg, w, ReloadedAfterTurn(st, sid))
  {
    ReloadKeepsExclusive(cfg, w, st, sid);
  }

  lemma AskFpKeepsExclusive(cfg: Config, w: map<Id, C.Dir>, st: State, sid: Id, fp: string)
    requires Exclusive(cfg, w, st) && WellFormed(st)
    ensures Exclusive(cfg, w, FpAsked(st, sid, fp))
  {
    ReloadAfterTurnKeepsExclusive(cfg, w, st.(desiredFp := st.desiredFp[sid := fp]), sid);
  }

  lemma UnwindKeepsExclusive(cfg: Config, w: map<Id, C.Dir>, st: State, n: nat)
    requires Exclusive(cfg, w, st) && n < |st.insts|
    ensures Exclusive(cfg, w, Unwound(st, n))
  {
    FlagsKeepExclusive(cfg, w, st, n, st.insts[n].(evolveRun := None, unwound := true));
  }

  lemma ExitKeepsExclusive(cfg: Config, w: map<Id, C.Dir>, st: State, n: nat)
    requires Exclusive(cfg, w, st) && n < |st.insts|
    ensures Exclusive(cfg, w, Exited(st, n)) <==>
            !(Owns(st, n) && st.insts[n].sid in st.booting && st.insts[n].sid in w)
  {
    var i := st.insts[n];
    if Owns(st, n) {
      LeaveKeeps(w, st.insts, st.live, st.booting, st.claims, i.sid);
      FlagsKeepExclusive(cfg, w, st.(live := st.live - {i.sid}), n, i.(exited := true));
      FreeKeepsExactly(cfg.home, w, st.insts[n := i.(exited := true)], st.live - {i.sid}, st.booting, st.claims, i.sid);
    } else {
      FlagsKeepExclusive(cfg, w, st, n, i.(exited := true));
    }
  }

  lemma RetryKeepsExclusive(cfg: Config, w: map<Id, C.Dir>, st: State, n: nat)
    requires Exclusive(cfg, w, st) && n < |st.insts|
    ensures Exclusive(cfg, w, Retried(st, n)) <==> Guarded(cfg, w, st, Retry(n))
  {
    var i := st.insts[n];
    var i' := i.(evolveRun := None, unwound := true, exited := true);
    LeaveKeeps(w, st.insts, st.live, st.booting, st.claims, i.sid);
    FlagsKeepExclusive(cfg, w, st.(live := st.live - {i.sid}), n, i');
    BootKeeps(w, st.insts[n := i'], st.live - {i.sid}, st.booting, st.claims, i.sid,
      Boot(i.firstSynthetic, i.firstSender, Desired(st, i.sid), None));
  }

  /** Every step keeps folder exclusion exactly when it is guarded. */
  lemma ExclusionKeptExactly(cfg: Config, w: map<Id, C.Dir>, st: State, e: Event)
    requires Exclusive(cfg, w, st) && WellFormed(st) && Enabled(cfg, st, e)
    ensures Exclusive(cfg, w, Next(cfg, st, e)) <==> Guarded(cfg, w, st, e)
  {
    match e
    case Continue(k) => SegmentKeepsExclusive(cfg, w, st, k);
    case GiveUp(k) => GiveUpKeepsExactly(cfg, w, st, k, st.sends[k].at.inst);
    case SendFailed(k) => FailureKeepsExclusive(cfg, w, st.(sends := st.sends - {k}), st.sends[k].sid);
    case BootDone(sid) => BootSucceedsKeepsExclusive(cfg, w, st, sid);
    case BootFailed(sid) => BootFailsKeepsExclusive(cfg, w, st, sid);
    case TagBoot(k) => TagKeepsExclusive(cfg, w, st, k);
    case Result(n, o, k) => ResultKeepsExclusive(cfg, w, st, n, o, k);
    case CheckGranted(k, run, voice) => GrantKeepsExclusive(cfg, w, st, k, run, voice);
    case Reload(sid) => ReloadKeepsExclusive(cfg, w, st, sid);
    case ReloadAfterTurn(sid) => ReloadAfterTurnKeepsExclusive(cfg, w, st, sid);
    case IdleClosed(n) => FlagsKeepExclusive(cfg, w, st, n, st.insts[n].(closing := true));
    case Abort(sid) => AbortKeepsExclusive(cfg, w, st, sid);
    case AskFp(sid, fp) => AskFpKeepsExclusive(cfg, w, st, sid, fp);
    case Unwind(n) => UnwindKeepsExclusive(cfg, w, st, n);
    case Exit(n) => ExitKeepsExclusive(cfg, w, st, n);
    case Retry(n) => RetryKeepsExclusive(cfg, w, st, n);
    case _ =>
  }

  lemma TagKeepsExclusive(cfg: Config, w: map<Id, C.Dir>, st: State, k: nat)
    requires Exclusive(cfg, w, st) && k in st.sends
    ensures Exclusive(cfg, w, TagAfterBoot(st, k))
  {
    var s := st.sends[k];
    if s.run.Some? && s.sid in st.live {
      var i := st.insts[st.live[s.sid]];
      if i.book.pendingInputs > 0 {
        assert Busy(st.insts, st.live, st.booting, s.sid);
      }
      PutKeeps(w, st.insts, st.live, st.booting, st.claims, st.live[s.sid],
        i.(book := T.Step(i.book, T.BootTag(s.run.value))));
    }
  }

  // ------------------------------------------------------------------ whole runs

  /** What holds in every reachable state, whatever the environment does. */
  ghost predicate Sound(cfg: Config, st: State) {
    Exclusive(cfg, map[], st)
  }

  lemma StepSound(cfg: Config, st: State, e: Event)
    requires Sound(cfg, st)
    ensures WellFormed(st)
    ensures Enabled(cfg, st, e) ==> Sound(cfg, Next(cfg, st, e))
  {
    if Enabled(cfg, st, e) {
      ExclusionKeptExactly(cfg, map[], st, e);
    }
  }

  /** Each event of the run can happen when its turn comes. */
  ghost predicate Possible(cfg: Config, st: State, es: seq<Event>)
    requires Sound(cfg, st)
    decreases es
  {
    es == [] || (StepSound(cfg, st, es[0]); Enabled(cfg, st, es[0]) && Possible(cfg, Next(cfg, st, es[0]), es[1..]))
  }

  ghost predicate GuardedRun(cfg: Config, w: map<Id, C.Dir>, st: State, es: seq<Event>)
    requires Sound(cfg, st) && Possible(cfg, st, es)
    decreases es
  {
    es == [] ||
    (StepSound(cfg, st, es[0]);
     Guarded(cfg, w, st, es[0]) && GuardedRun(cfg, w, Next(cfg, st, es[0]), es[1..]))
  }

  ghost function Run(cfg: Config, st: State, es: seq<Event>): State
    requires Sound(cfg, st) && Possible(cfg, st, es)
    decreases es
  {
    if es == [] then st else StepSound(cfg, st, es[0]); Run(cfg, Next(cfg, st, es[0]), es[1..])
  }

  lemma {:induction false} RunKeepsExclusive(cfg: Config, w: map<Id, C.Dir>, st: State, es: seq<Event>)
    requires Sound(cfg, st) && Exclusive(cfg, w, st) && Possible(cfg, st, es) && GuardedRun(cfg, w, st, es)
    ensures Exclusive(cfg, w, Run(cfg, st, es))
    decreases es
  {
    if es != [] {
      StepSound(cfg, st, es[0]);
      ExclusionKeptExactly(cfg, w, st, es[0]);
      RunKeepsExclusive(cfg, w, Next(cfg, st, es[0]), es[1..]);
    }
  }

  /** The sessions that work in folder `dir`. */
  ghost function HomesOf(cfg: Config, dir: C.Dir): map<Id, C.Dir> {
    map s | s in cfg.home && cfg.home[s] == dir :: dir
  }

  lemma OneTurnOf(cfg: Config, dir: C.Dir, st: State, a: Id, b: Id)
    requires Exclusive(cfg, HomesOf(cfg, dir), st)
    requires a in cfg.home && cfg.home[a] == dir && b in cfg.home && cfg.home[b] == dir
    ensures WellFormed(st)
    ensures TurnInFlight(st, a) && TurnInFlight(st, b) ==> a == b && C.HolderOf(st.claims, dir) == Some(a)
  {
    forall s | s in HomesOf(cfg, dir) && TurnInFlight(st, s) ensures Mans(HomesOf(cfg, dir), st.claims, s) {
      assert Busy(st.insts, st.live, st.booting, s);
    }
  }

  /**
   * After every run whose steps are guarded for folder `dir`, two sessions of that folder with an
   * input outstanding are one session, and it holds the folder.
   */
  lemma OneTurnPerFolder(cfg: Config, dir: C.Dir, es: seq<Event>, a: Id, b: Id)
    requires Possible(cfg, INITIAL, es) && GuardedRun(cfg, HomesOf(cfg, dir), INITIAL, es)
    requires a in cfg.home && cfg.home[a] == dir && b in cfg.home && cfg.home[b] == dir
    ensures var st := Run(cfg, INITIAL, es);
            WellFormed(st) && (TurnInFlight(st, a) && TurnInFlight(st, b) ==>
              a == b && C.HolderOf(st.claims, dir) == Some(a))
  {
    RunKeepsExclusive(cfg, HomesOf(cfg, dir), INITIAL, es);
    OneTurnOf(cfg, dir, Run(cfg, INITIAL, es), a, b);
  }

  // ------------------------------------------------- without overlapping instances

  /**
   * The three events that a session with one instance at a time must do without: a send that gives up
   * on an instance already replaced and boots, and a retry, or a check after a stray result, without
   * the folder.
   */
  ghost predicate Orderly(cfg: Config, w: map<Id, C.Dir>, st: State, e: Event)
    requires WellFormed(st)
  {
    && !BootsBeside(cfg, st, e)
    && (e.Retry? && e.inst < |st.insts| ==> Mans(w, st.claims, st.insts[e.inst].sid))
    && (e.Result? && e.inst < |st.insts| && StrayCheck(cfg, st, e.inst, e.outcome) ==>
          Mans(w, st.claims, st.insts[e.inst].sid))
  }

  /** No boot is in flight under the feet of a live instance, so no folder is freed under a boot. */
  lemma OrderlyIsGuarded(cfg: Config, w: map<Id, C.Dir>, st: State, e: Event)
    requires WellFormed(st) && Enabled(cfg, st, e) && NoOverlap(st)
    ensures Orderly(cfg, w, st, e) <==> Guarded(cfg, w, st, e) && !BootsBeside(cfg, st, e)
  {
  }

  /**
   * From a state with one instance of each session at a time a step keeps that, and exclusion, exactly when it is
   * orderly.
   */
  lemma OrderKeptExactly(cfg: Config, w: map<Id, C.Dir>, st: State, e: Event)
    requires Exclusive(cfg, w, st) && NoOverlap(st) && WellFormed(st) && Enabled(cfg, st, e)
    ensures Exclusive(cfg, w, Next(cfg, st, e)) && NoOverlap(Next(cfg, st, e)) <==> Orderly(cfg, w, st, e)
  {
    ExclusionKeptExactly(cfg, w, st, e);
    OverlapExactly(cfg, st, e);
    OrderlyIsGuarded(cfg, w, st, e);
  }

  ghost predicate OrderlyRun(cfg: Config, w: map<Id, C.Dir>, st: State, es: seq<Event>)
    requires Sound(cfg, st) && Possible(cfg, st, es)
    decreases es
  {
    es == [] ||
    (StepSound(cfg, st, es[0]);
     Orderly(cfg, w, st, es[0]) && OrderlyRun(cfg, w, Next(cfg, st, es[0]), es[1..]))
  }

  lemma {:induction false} OrderlyRunKeeps(cfg: Config, w: map<Id, C.Dir>, st: State, es: seq<Event>)
    requires Sound(cfg, st) && Exclusive(cfg, w, st) && NoOverlap(st)
    requires Possible(cfg, st, es) && OrderlyRun(cfg, w, st, es)
    ensures Exclusive(cfg, w, Run(cfg, st, es)) && NoOverlap(Run(cfg, st, es))
    decreases es
  {
    if es != [] {
      StepSound(cfg, st, es[0]);
      OrderKeptExactly(cfg, w, st, es[0]);
      OrderlyRunKeeps(cfg, w, Next(cfg, st, es[0]), es[1..]);
    }
  }

  /** No send of the run gives up, and no instance of it retries. */
  predicate Patient(es: seq<Event>) {
    forall i :: 0 <= i < |es| ==> !es[i].GiveUp? && !es[i].Retry?
  }

  lemma {:induction false} PatientIsOrderly(cfg: Config, w: map<Id, C.Dir>, st: State, es: seq<Event>)
    requires cfg.budgeted && Sound(cfg, st) && Possible(cfg, st, es) && Patient(es)
    ensures OrderlyRun(cfg, w, st, es)
    decreases es
  {
    if es != [] {
      StepSound(cfg, st, es[0]);
      PatientIsOrderly(cfg, w, Next(cfg, st, es[0]), es[1..]);
    }
  }

  /**
   * After every orderly run, and so after every run of a budgeted manager in which no send gives up and
   * no instance retries: each session has one instance at a time, and two sessions of a folder with an
   * input outstanding are one session, its holder.
   */
  lemma OneTurnWhileOrderly(cfg: Config, dir: C.Dir, es: seq<Event>, a: Id, b: Id)
    requires Possible(cfg, INITIAL, es)
    requires OrderlyRun(cfg, HomesOf(cfg, dir), INITIAL, es) || (cfg.budgeted && Patient(es))
    requires a in cfg.home && cfg.home[a] == dir && b in cfg.home && cfg.home[b] == dir
    ensures NoOverlap(Run(cfg, INITIAL, es))
    ensures var st := Run(cfg, INITIAL, es);
            WellFormed(st) && (TurnInFlight(st, a) && TurnInFlight(st, b) ==>
              a == b && C.HolderOf(st.claims, dir) == Some(a))
  {
    if cfg.budgeted && Patient(es) {
      PatientIsOrderly(cfg, HomesOf(cfg, dir), INITIAL, es);
    }
    OrderlyRunKeeps(cfg, HomesOf(cfg, dir), INITIAL, es);
    OneTurnOf(cfg, dir, Run(cfg, INITIAL, es), a, b);
  }

  /** The run `es` can happen from `st` and ends in `end`. */
  ghost predicate Leads(cfg: Config, st: State, es: seq<Event>, end: State)
    decreases es
  {
    if es == [] then st == end
    else WellFormed(st) && Enabled(cfg, st, es[0]) && Leads(cfg, Next(cfg, st, es[0]), es[1..], end)
  }

  lemma {:induction false} LeadsRuns(cfg: Config, st: State, es: seq<Event>, end: State)
    requires Sound(cfg, st) && Leads(cfg, st, es, end)
    ensures Possible(cfg, st, es) && Run(cfg, st, es) == end
    decreases es
  {
    if es != [] {
      StepSound(cfg, st, es[0]);
      LeadsRuns(cfg, Next(cfg, st, es[0]), es[1..], end);
    }
  }

  lemma LeadsStep(cfg: Config, st: State, e: Event, mid: State, es: seq<Event>, end: State)
    requires WellFormed(st) && Enabled(cfg, st, e) && Next(cfg, st, e) == mid && Leads(cfg, mid, es, end)
    ensures Leads(cfg, st, [e] + es, end)
  {
    assert ([e] + es)[1..] == es;
  }

  /** A boot in flight succeeds. */
  lemma BootsUp(cfg: Config, st: State, sid: Id, es: seq<Event>, end: State)
    requires WellFormed(st) && sid in st.booting && Leads(cfg, BootSucceeds(st, sid), es, end)
    ensures Leads(cfg, st, [BootDone(sid)] + es, end)
  {
    LeadsStep(cfg, st, BootDone(sid), BootSucceeds(st, sid), es, end);
  }

  lemma StartsSound(cfg: Config)
    ensures WellFormed(INITIAL) && Sound(cfg, INITIAL)
  {
  }

  lemma LeadsFromTheStart(cfg: Config, es: seq<Event>, end: State)
    requires Leads(cfg, INITIAL, es, end)
    ensures Sound(cfg, INITIAL) && Possible(cfg, INITIAL, es) && Run(cfg, INITIAL, es) == end
  {
    StartsSound(cfg);
    LeadsRuns(cfg, INITIAL, es, end);
  }

  /** A session that found its folder free and started to boot there for send `k`. */
  function Taken(cfg: Config, st: State, k: nat, sid: Id): State
    requires sid in cfg.home
  {
    st.(sends := st.sends[k := Send(sid, false, None, None, Booting)],
        claims := C.Acquired(st.claims, cfg.home[sid], sid),
        booting := st.booting[sid := Boot(false, None, Desired(st, sid), Some(k))])
  }

  lemma HoldsThenBoots(cfg: Config, st: State, k: nat, sid: Id, waits: State, es: seq<Event>, end: State)
    requires WellFormed(waits) && k in waits.sends && sid in cfg.home
    requires waits == st.(sends := st.sends[k := Send(sid, false, None, None, AwaitFolder(st.claims.next))],
             claims := C.Acquired(st.claims, cfg.home[sid], sid))
    requires cfg.home[sid] !in st.claims.folders && sid !in st.live && sid !in st.booting
    requires Leads(cfg, Taken(cfg, st, k, sid), es, end)
    ensures Leads(cfg, waits, [Wake(k)] + ([Continue(k)] + es), end)
  {
    var holds := Park(waits, k, Ready);
    assert waits.claims.resolved[|st.claims.resolved|] == st.claims.next;
    assert StartBoot(holds, k) == Taken(cfg, st, k, sid);
    LeadsStep(cfg, holds, Continue(k), Taken(cfg, st, k, sid), es, end);
    LeadsStep(cfg, waits, Wake(k), holds, [Continue(k)] + es, end);
  }

  lemma AsksStand(cfg: Config, st: State, k: nat, sid: Id, asks: State)
    requires WellFormed(st) && k !in st.sends
    requires asks == st.(sends := st.sends[k := Send(sid, false, None, None, Ready)])
    ensures WellFormed(asks) && Enabled(cfg, st, NewSend(k, sid, false, None, None))
    ensures Next(cfg, st, NewSend(k, sid, false, None, None)) == asks
  {
  }

  lemma AsksForFree(cfg: Config, st: State, k: nat, sid: Id, waits: State, es: seq<Event>, end: State)
    requires WellFormed(st) && k !in st.sends && sid in cfg.home
    requires cfg.home[sid] !in st.claims.folders && sid !in st.live
    requires waits == st.(sends := st.sends[k := Send(sid, false, None, None, AwaitFolder(st.claims.next))],
                          claims := C.Acquired(st.claims, cfg.home[sid], sid))
    requires Leads(cfg, waits, es, end)
    ensures Leads(cfg, st, [NewSend(k, sid, false, None, None)] + ([Continue(k)] + es), end)
  {
    var asks := st.(sends := st.sends[k := Send(sid, false, None, None, Ready)]);
    AsksStand(cfg, st, k, sid, asks);
    assert SendSegment(cfg, asks, k) == AskFolder(cfg, asks, k) == waits;
    LeadsStep(cfg, asks, Continue(k), waits, es, end);
    LeadsStep(cfg, st, NewSend(k, sid, false, None, None), asks, [Continue(k)] + es, end);
  }

  /** A first message to an idle session whose folder is free: ask, get it, boot. */
  lemma TakesFreeFolder(cfg: Config, st: State, k: nat, sid: Id, es: seq<Event>, end: State)
    requires WellFormed(st) && k !in st.sends && sid in cfg.home
    requires cfg.home[sid] !in st.claims.folders && sid !in st.live && sid !in st.booting
    requires Leads(cfg, Taken(cfg, st, k, sid), es, end)
    ensures Leads(cfg, st, [NewSend(k, sid, false, None, None)]
            + ([Continue(k)] + ([Wake(k)] + ([Continue(k)] + es))), end)
  {
    var waits := st.(sends := st.sends[k := Send(sid, false, None, None, AwaitFolder(st.claims.next))],
                     claims := C.Acquired(st.claims, cfg.home[sid], sid));
    AcquireKeepsForm(st, k, sid, cfg.home[sid], waits);
    HoldsThenBoots(cfg, st, k, sid, waits, es, end);
    AsksForFree(cfg, st, k, sid, waits, [Wake(k)] + ([Continue(k)] + es), end);
  }

  lemma AcquireKeepsForm(st: State, k: nat, sid: Id, dir: C.Dir, waits: State)
    requires WellFormed(st) && waits.insts == st.insts && waits.live == st.live && waits.checks == st.checks
    requires waits.claims == C.Acquired(st.claims, dir, sid)
    ensures WellFormed(waits)
  {
  }

  // ------------------------------------------------- a retry that lost its folder

  const SHARED := Config(map["A" := "/f", "B" := "/f"], true)
  const FOR_A := Boot(false, None, None, Some(0))
  const A_LIVE := NewInstance("A", FOR_A)
  const A_ENDED := A_LIVE.(book := T.Ended(A_LIVE.book))

  // A runs its first turn ...
  const A_RUNS := INITIAL.(
    insts := [A_LIVE], live := map["A" := 0],
    sends := map[0 := Send("A", false, None, None, AwaitTag)],
    claims := C.State(map["/f" := C.Folder("A", [])], map["A" := "/f"], [0], 1))
  // ... whose result, a resume miss, frees the folder ...
  const A_IDLE := A_RUNS.(insts := [A_ENDED], claims := C.State(map[], map[], [0], 1))
  // ... and whose query loop then throws and boots A again without asking.
  const A_RETRIES := A_IDLE.(
    insts := [A_ENDED.(unwound := true, exited := true)], live := map[], booting := map["A" := FOR_A.(send := None)])

  /** Meanwhile B finds the folder free and boots there, and then both boots succeed. */
  function BothRun(): State
  {
    BootSucceeds(BootSucceeds(Taken(SHARED, A_RETRIES, 1, "B"), "B"), "A")
  }

  lemma ABootSucceedsFirst()
    ensures BootSucceeds(Taken(SHARED, INITIAL, 0, "A"), "A") == A_RUNS
  {
  }

  lemma ATakenStands()
    ensures WellFormed(Taken(SHARED, INITIAL, 0, "A")) && "A" in Taken(SHARED, INITIAL, 0, "A").booting
  {
  }

  lemma ARuns(es: seq<Event>, end: State)
    requires Leads(SHARED, A_RUNS, es, end)
    ensures Leads(SHARED, Taken(SHARED, INITIAL, 0, "A"), [BootDone("A")] + es, end)
  {
    ATakenStands();
    ABootSucceedsFirst();
    BootsUp(SHARED, Taken(SHARED, INITIAL, 0, "A"), "A", es, end);
  }

  lemma AEndsItsTurn(es: seq<Event>, end: State)
    requires Leads(SHARED, A_IDLE, es, end)
    ensures Leads(SHARED, A_RUNS, [Result(0, Failed(true), 0)] + es, end)
  {
    LeadsStep(SHARED, A_RUNS, Result(0, Failed(true), 0), A_IDLE, es, end);
  }

  lemma ARetries(es: seq<Event>, end: State)
    requires Leads(SHARED, A_RETRIES, es, end)
    ensures Leads(SHARED, A_IDLE, [Retry(0)] + es, end)
  {
    LeadsStep(SHARED, A_IDLE, Retry(0), A_RETRIES, es, end);
  }

  /** Two sessions of the folder have a turn in flight, and A is not its holder. */
  ghost predicate TwoTurns(st: State) {
    WellFormed(st) && TurnInFlight(st, "A") && TurnInFlight(st, "B") && Holder(SHARED, st, "A") == Some("B")
  }

  lemma BootLeaves(st: State, sid: Id, other: Id)
    requires WellFormed(st) && sid in st.booting
    ensures var st' := BootSucceeds(st, sid);
            && WellFormed(st') && TurnInFlight(st', sid) && st'.claims == st.claims
            && (other != sid && other in st.booting ==> other in st'.booting)
            && (other != sid && other in st.live && TurnInFlight(st, other) ==>
                other in st'.live && TurnInFlight(st', other))
  {
  }

  lemma BothBootHere(st: State)
    requires WellFormed(st) && "A" in st.booting && "B" in st.booting && "/f" in st.claims.folders
    requires st.claims.folders["/f"].holder == "B"
    ensures var st1 := BootSucceeds(st, "B");
            && "A" in st1.booting && TwoTurns(BootSucceeds(st1, "A"))
            && Leads(SHARED, st, [BootDone("B")] + ([BootDone("A")] + []), BootSucceeds(st1, "A"))
  {
    var st1 := BootSucceeds(st, "B");
    BootLeaves(st, "B", "A");
    BootLeaves(st1, "A", "B");
    BootsUp(SHARED, st1, "A", [], BootSucceeds(st1, "A"));
    BootsUp(SHARED, st, "B", [BootDone("A")] + [], BootSucceeds(st1, "A"));
  }

  lemma BothBoot()
    ensures Leads(SHARED, Taken(SHARED, A_RETRIES, 1, "B"), [BootDone("B")] + ([BootDone("A")] + []), BothRun())
    ensures TwoTurns(BothRun())
  {
    BothBootHere(Taken(SHARED, A_RETRIES, 1, "B"));
  }

  lemma BTakesTheFolder(es: seq<Event>, end: State)
    requires Leads(SHARED, Taken(SHARED, A_RETRIES, 1, "B"), es, end)
    ensures Leads(SHARED, A_RETRIES, [NewSend(1, "B", false, None, None)]
            + ([Continue(1)] + ([Wake(1)] + ([Continue(1)] + es))), end)
  {
    TakesFreeFolder(SHARED, A_RETRIES, 1, "B", es, end);
  }

  lemma ATakesTheFolder(es: seq<Event>, end: State)
    requires Leads(SHARED, Taken(SHARED, INITIAL, 0, "A"), es, end)
    ensures Leads(SHARED, INITIAL, [NewSend(0, "A", false, None, None)]
            + ([Continue(0)] + ([Wake(0)] + ([Continue(0)] + es))), end)
  {
    TakesFreeFolder(SHARED, INITIAL, 0, "A", es, end);
  }

  /** How A comes to boot again without its folder. */
  lemma LosesItsFolder(es: seq<Event>, end: State) returns (es': seq<Event>)
    requires Leads(SHARED, A_RETRIES, es, end)
    ensures Leads(SHARED, INITIAL, es', end)
  {
    var es3 := [Retry(0)] + es;
    var es2 := [Result(0, Failed(true), 0)] + es3;
    var es1 := [BootDone("A")] + es2;
    ARetries(es, end);
    AEndsItsTurn(es3, end);
    ARuns(es2, end);
    ATakesTheFolder(es1, end);
    es' := [NewSend(0, "A", false, None, None)] + ([Continue(0)] + ([Wake(0)] + ([Continue(0)] + es1)));
  }

  lemma BothRunReached() returns (es: seq<Event>)
    ensures Leads(SHARED, INITIAL, es, BothRun())
  {
    var es5 := [BootDone("B")] + ([BootDone("A")] + []);
    BothBoot();
    BTakesTheFolder(es5, BothRun());
    es := LosesItsFolder([NewSend(1, "B", false, None, None)]
      + ([Continue(1)] + ([Wake(1)] + ([Continue(1)] + es5))), BothRun());
  }

  /**
   * Without the guard exclusion fails: a run leaves both sessions of one folder with a turn in flight, one of
   * them not its holder.
   */
  lemma RetryBreaksExclusion() returns (es: seq<Event>)
    ensures Sound(SHARED, INITIAL) && Possible(SHARED, INITIAL, es) && TwoTurns(Run(SHARED, INITIAL, es))
  {
    es := BothRunReached();
    LeadsFromTheStart(SHARED, es, BothRun());
    BothBoot();
  }
}
