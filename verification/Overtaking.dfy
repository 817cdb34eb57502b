/**
 * Runs in which one instance of a session overtakes another (src/agent/manager.ts):
 * two sends wait for the same instance to exit, the first gives up and boots a
 * fresh one, and the second, or the old instance's own retry, passes over it.
 */
module Overtaking {
  import opened Common
  import opened AgentManager
  import opened FolderExclusion
  import opened CheckTurns
  import opened ConfigFingerprint
  import C = WorkspaceClaims
  import T = TurnBook

  const WAITS := Waits0("S")
  const OLD := ALIVE.(reloading := true, aborted := true)
  const NEW := NewInstance("S", Boot(false, None, None, Some(1)))
  const ENDED := NEW.(book := T.Ended(NEW.book))
  const IN_CHECK := WithCheck(ENDED.(evolveRun := Some(7)))

  // S runs its first turn and is told to reload; two messages wait for the instance to exit.
  const RELOADS := RUNS.(insts := [ALIVE.(reloading := true)])
  const ONE_WAITS := RELOADS.(sends := RELOADS.sends[1 := WAITS])
  const BOTH_WAIT := ONE_WAITS.(sends := ONE_WAITS.sends[2 := WAITS])
  // The first gives up, and boots a fresh instance.
  const REBOOTS := BOTH_WAIT.(
    insts := [OLD], live := map[], booting := map["S" := Boot(false, None, None, Some(1))],
    sends := BOTH_WAIT.sends[1 := WAITS.(at := Booting)])
  const REPLACED := REBOOTS.(
    insts := [OLD, NEW], live := map["S" := 1], booting := map[], sends := BOTH_WAIT.sends[1 := WAITS.(at := AwaitTag)])

  function Waits0(sid: Id): Send {
    Send(sid, false, None, None, AwaitExit(0))
  }

  lemma MessageWaits(cfg: Config, st: State, sid: Id, k: nat, es: seq<Event>, end: State)
    requires WellFormed(st) && k !in st.sends && sid in st.live && st.live[sid] == 0 && st.insts[0].reloading
    requires Leads(cfg, st.(sends := st.sends[k := Waits0(sid)]), es, end)
    ensures Leads(cfg, st, [NewSend(k, sid, false, None, None)] + ([Continue(k)] + es), end)
  {
    var asks := st.(sends := st.sends[k := Waits0(sid).(at := Ready)]);
    assert SendSegment(cfg, asks, k) == st.(sends := st.sends[k := Waits0(sid)]);
    LeadsStep(cfg, asks, Continue(k), st.(sends := st.sends[k := Waits0(sid)]), es, end);
    LeadsStep(cfg, st, NewSend(k, sid, false, None, None), asks, [Continue(k)] + es, end);
  }

  lemma Reloads(es: seq<Event>, end: State)
    requires Leads(PLAIN, RELOADS, es, end)
    ensures Leads(PLAIN, RUNS, [Reload("S")] + es, end)
  {
    LeadsStep(PLAIN, RUNS, Reload("S"), RELOADS, es, end);
  }

  lemma FirstGivesUp(es: seq<Event>, end: State)
    requires Leads(PLAIN, REBOOTS, es, end)
    ensures Leads(PLAIN, BOTH_WAIT, [GiveUp(1)] + es, end)
  {
    assert GivenUp(PLAIN, BOTH_WAIT, 1, 0) == REBOOTS;
    LeadsStep(PLAIN, BOTH_WAIT, GiveUp(1), REBOOTS, es, end);
  }

  lemma FreshInstance(es: seq<Event>, end: State)
    requires Leads(PLAIN, REPLACED, es, end)
    ensures Leads(PLAIN, REBOOTS, [BootDone("S")] + es, end)
  {
    assert BootSucceeds(REBOOTS, "S") == REPLACED;
    BootsUp(PLAIN, REBOOTS, "S", es, end);
  }

  lemma TwoSendsWait(es: seq<Event>, end: State) returns (es': seq<Event>)
    requires Leads(PLAIN, BOTH_WAIT, es, end)
    ensures Leads(PLAIN, RELOADS, es', end)
  {
    MessageWaits(PLAIN, ONE_WAITS, "S", 2, es, end);
    var es1 := [NewSend(2, "S", false, None, None)] + ([Continue(2)] + es);
    MessageWaits(PLAIN, RELOADS, "S", 1, es1, end);
    es' := [NewSend(1, "S", false, None, None)] + ([Continue(1)] + es1);
  }

  /** How a session comes to have a detached instance, a fresh live one, and a send that still waits for the old one. */
  lemma IsReplaced(es: seq<Event>, end: State) returns (es': seq<Event>)
    requires Leads(PLAIN, REPLACED, es, end)
    ensures Leads(PLAIN, INITIAL, es', end)
  {
    FreshInstance(es, end);
    FirstGivesUp([BootDone("S")] + es, end);
    var es1 := TwoSendsWait([GiveUp(1)] + ([BootDone("S")] + es), end);
    Reloads(es1, end);
    FirstTurn([Reload("S")] + es1, end);
    es' := [NewSend(0, "S", false, None, None)] + ([Continue(0)] + ([BootDone("S")] + ([Reload("S")] + es1)));
  }

  /** What the second part of each run needs of that state. */
  ghost predicate Standing(st: State) {
    && WellFormed(st) && |st.insts| == 2 && st.live == map["S" := 1] && st.booting == map[]
    && st.insts[1] == NEW && !st.insts[0].unwound && st.insts[0].sid == "S"
    && st.reloadAfterTurn == {} && st.checks == map[] && st.started == {}
    && 2 in st.sends && st.sends[2] == WAITS
  }

  lemma ReplacedStands()
    ensures Standing(REPLACED)
  {
  }

  /**
   * The second send gives up too: the live instance, whichever it is, is aborted and stays, and another
   * boots beside it.
   */
  function Beside(st: State, sid: Id): State
    requires WellFormed(st) && 2 in st.sends
  {
    StartBoot(Aborted(st, sid), 2)
  }

  lemma SecondGivesUp(cfg: Config, st: State, sid: Id, es: seq<Event>, end: State)
    requires WellFormed(st) && st.live == map[sid := 1] && st.booting == map[] && 2 in st.sends
    requires st.sends[2] == Waits0(sid)
    requires !NeedsFolder(cfg, st, sid) && Leads(cfg, Beside(st, sid), es, end)
    ensures Leads(cfg, st, [GiveUp(2)] + es, end)
  {
    assert LetGo(st, sid, 0) == Aborted(st, sid);
    assert !NeedsFolder(cfg, Aborted(st, sid), sid);
    assert GivenUp(cfg, st, 2, 0) == Beside(st, sid);
    LeadsStep(cfg, st, GiveUp(2), Beside(st, sid), es, end);
  }

  lemma BesideIs(st: State, sid: Id)
    requires WellFormed(st) && st.live == map[sid := 1] && 2 in st.sends && st.sends[2] == Waits0(sid)
    ensures var st' := Beside(st, sid);
            && WellFormed(st') && st'.live == st.live && sid in st'.booting
            && st'.booting.Keys == st.booting.Keys + {sid}
            && st'.booting[sid].fp == Desired(st, sid) && st'.desiredFp == st.desiredFp && st'.claims == st.claims
            && st'.insts == st.insts[1 := st.insts[1].(aborted := true)] && st'.sends.Keys == st.sends.Keys
            && st'.reloadAfterTurn == st.reloadAfterTurn - {sid} && st'.checks == st.checks
  {
  }

  // --------------------------------------------------------- past a check turn

  /** The live instance ends its turn and asks for a check. */
  function Asks(st: State): State
    requires Standing(st)
  {
    AfterResult(PLAIN, st, 1, Succeeded(true), 5)
  }

  lemma AsksIs(st: State)
    requires Standing(st)
    ensures WellFormed(Asks(st)) && Asks(st).checks == map[5 := CheckStart("S", 1, 1)]
    ensures Asks(st).insts == st.insts[1 := ENDED] && Asks(st).live == st.live && Asks(st).booting == st.booting
    ensures Asks(st).reloadAfterTurn == {} && Asks(st).started == {} && Asks(st).sends == st.sends
  {
    ResultFields(PLAIN, st, 1, Succeeded(true), 5, false);
    C.ReleaseKeepsLinks(st.claims, "S");
  }

  /** ... and is given its run. */
  function InCheck(st: State): State
    requires Standing(st)
  {
    AsksIs(st);
    AfterGrant(PLAIN, Asks(st), 5, 7, false)
  }

  lemma InCheckIs(st: State)
    requires Standing(st)
    ensures WellFormed(InCheck(st)) && InCheck(st).insts == st.insts[1 := IN_CHECK]
    ensures InCheck(st).live == st.live && InCheck(st).booting == st.booting && InCheck(st).sends == st.sends
  {
    AsksIs(st);
    GrantFields(PLAIN, Asks(st), 5, 7, false);
    assert PushesCheck(PLAIN, Asks(st), Asks(st).checks[5], false);
  }

  lemma StartsACheck(st: State, es: seq<Event>, end: State)
    requires Standing(st) && Leads(PLAIN, InCheck(st), es, end)
    ensures Leads(PLAIN, st, [Result(1, Succeeded(true), 5)] + ([CheckGranted(5, 7, false)] + es), end)
  {
    AsksIs(st);
    LeadsStep(PLAIN, Asks(st), CheckGranted(5, 7, false), InCheck(st), es, end);
    LeadsStep(PLAIN, st, Result(1, Succeeded(true), 5), Asks(st), [CheckGranted(5, 7, false)] + es, end);
  }

  /** Instance 1 is in a check turn, and another of its session is live with a turn in flight. */
  ghost predicate Bypassed(st: State) {
    && WellFormed(st) && TurnInFlight(st, "S") && st.live["S"] == 2
    && st.insts[1].sid == "S" && st.insts[1].checkEnded.Some? && st.insts[1].evolveRun == Some(7) && !st.insts[1].exited
  }

  lemma BootsPast(st: State) returns (end: State)
    requires WellFormed(st) && |st.insts| == 2 && st.insts[1] == IN_CHECK.(aborted := true) && "S" in st.booting
    ensures Leads(PLAIN, st, [BootDone("S")] + [], end) && Bypassed(end)
  {
    end := BootSucceeds(st, "S");
    LeadsStep(PLAIN, st, BootDone("S"), end, [], end);
  }

  lemma PassesTheCheck(st: State) returns (es: seq<Event>, end: State)
    requires Standing(st)
    ensures Leads(PLAIN, st, es, end) && Bypassed(end)
  {
    InCheckIs(st);
    BesideIs(InCheck(st), "S");
    end := BootsPast(Beside(InCheck(st), "S"));
    SecondGivesUp(PLAIN, InCheck(st), "S", [BootDone("S")] + [], end);
    StartsACheck(st, [GiveUp(2)] + ([BootDone("S")] + []), end);
    es := [Result(1, Succeeded(true), 5)] + ([CheckGranted(5, 7, false)] + ([GiveUp(2)] + ([BootDone("S")] + [])));
  }

  /**
   * A second send that gives up on the same instance starts a turn of the session past the check turn of the
   * fresh one.
   */
  lemma CheckIsOvertaken() returns (es: seq<Event>)
    ensures Sound(PLAIN, INITIAL) && Possible(PLAIN, INITIAL, es) && Bypassed(Run(PLAIN, INITIAL, es))
  {
    ReplacedStands();
    var es1, end := PassesTheCheck(REPLACED);
    es := IsReplaced(es1, end);
    LeadsFromTheStart(PLAIN, es, end);
  }

  // ------------------------------------------------------ displaced by a retry

  /**
   * Instance 1 has a turn in flight and has not exited, but is no longer live: another boot of its session
   * is in flight.
   */
  ghost predicate Displaced(st: State) {
    && "S" !in st.live && "S" in st.booting && |st.insts| == 2
    && st.insts[1].sid == "S" && st.insts[1].book.pendingInputs == 1 && !st.insts[1].exited
  }

  lemma OldRetries(st: State)
    requires Standing(st)
    ensures Leads(PLAIN, st, [Retry(0)] + [], Retried(st, 0)) && Displaced(Retried(st, 0))
  {
    LeadsStep(PLAIN, st, Retry(0), Retried(st, 0), [], Retried(st, 0));
  }

  /** The retry of a detached instance takes the place of the live one in the middle of its turn. */
  lemma RetryDisplaces() returns (es: seq<Event>)
    ensures Sound(PLAIN, INITIAL) && Possible(PLAIN, INITIAL, es) && Displaced(Run(PLAIN, INITIAL, es))
  {
    ReplacedStands();
    OldRetries(REPLACED);
    es := IsReplaced([Retry(0)] + [], Retried(REPLACED, 0));
    LeadsFromTheStart(PLAIN, es, Retried(REPLACED, 0));
  }

  // --------------------------------------------------------------- a stale boot

  /** The live instance ends its turn. */
  function Rests(st: State): State
    requires Standing(st)
  {
    AfterResult(PLAIN, st, 1, Succeeded(false), 5)
  }

  lemma RestsIs(st: State)
    requires Standing(st)
    ensures WellFormed(Rests(st)) && Rests(st).insts == st.insts[1 := ENDED] && Rests(st).live == st.live
    ensures Rests(st).booting == st.booting && Rests(st).sends == st.sends && Rests(st).desiredFp == st.desiredFp
  {
    ResultFields(PLAIN, st, 1, Succeeded(false), 5, false);
    C.ReleaseKeepsLinks(st.claims, "S");
  }

  lemma EndsItsTurn(st: State, es: seq<Event>, end: State)
    requires Standing(st) && WellFormed(Rests(st)) && Leads(PLAIN, Rests(st), es, end)
    ensures Leads(PLAIN, st, [Result(1, Succeeded(false), 5)] + es, end)
  {
    LeadsStep(PLAIN, st, Result(1, Succeeded(false), 5), Rests(st), es, end);
  }

  /** A call for "new" waits for instance 1, and a boot is in flight that started before the call. */
  ghost predicate CallsLate(st: State) {
    && WellFormed(st) && st.live == map["S" := 1] && "S" in st.booting && st.booting["S"].fp == None
    && |st.insts| == 2 && st.insts[1].sid == "S" && st.insts[1].bootFp == None && st.insts[1].book.pendingInputs == 0
  }

  lemma IsAsked(st: State)
    requires CallsLate(st)
    ensures var now := FpAsked(st, "S", "new");
            && CallsLate(now) && Leads(PLAIN, st, [AskFp("S", "new")] + [], now)
            && Asked(now, "S", "new") && AnswerNow(now, "S", "new") == Waits(1)
  {
    var now := FpAsked(st, "S", "new");
    LeadsStep(PLAIN, st, AskFp("S", "new"), now, [], now);
  }

  lemma ComesToCallLate(st: State) returns (es: seq<Event>, now: State)
    requires Standing(st) && st.desiredFp == map[]
    ensures Leads(PLAIN, st, es, now) && CallsLate(now)
    ensures Asked(now, "S", "new") && AnswerNow(now, "S", "new") == Waits(1)
  {
    RestsIs(st);
    BesideIs(Rests(st), "S");
    IsAsked(Beside(Rests(st), "S"));
    now := FpAsked(Beside(Rests(st), "S"), "S", "new");
    SecondGivesUp(PLAIN, Rests(st), "S", [AskFp("S", "new")] + [], now);
    EndsItsTurn(st, [GiveUp(2)] + ([AskFp("S", "new")] + []), now);
    es := [Result(1, Succeeded(false), 5)] + ([GiveUp(2)] + ([AskFp("S", "new")] + []));
  }

  /**
   * A call that waits for an idle instance beside which a stale boot is in flight answers true, and
   * the session is not under its fingerprint.
   */
  lemma TrueWithAStaleBoot() returns (before: seq<Event>, during: seq<Event>)
    ensures Sound(PLAIN, INITIAL) && Possible(PLAIN, INITIAL, before)
    ensures var now := Run(PLAIN, INITIAL, before);
            && WellFormed(now) && Sound(PLAIN, now) && Asked(now, "S", "new") && AnswerNow(now, "S", "new") == Waits(1)
            && Possible(PLAIN, now, during) && NoOtherAsk(during, "S", "new")
            && AnswersTrue(PLAIN, now, during, "S", "new") && !Under(Run(PLAIN, now, during), "S", "new")
  {
    ReplacedStands();
    var es, now := ComesToCallLate(REPLACED);
    before := IsReplaced(es, now);
    LeadsFromTheStart(PLAIN, before, now);
    RunSound(PLAIN, INITIAL, before);
    during := StaleBootIsNotUnder(PLAIN, now, "S", "new");
  }

  // ----------------------------------------------------------- a folder handed on

  const A_OLD := A_LIVE.(reloading := true, aborted := true)
  const A_NEW := NewInstance("A", FOR_A.(send := Some(1)))
  const A_RELOADS := A_RUNS.(insts := [A_LIVE.(reloading := true)])
  const A_ONE := A_RELOADS.(sends := A_RELOADS.sends[1 := Waits0("A")])
  const A_BOTH := A_ONE.(sends := A_ONE.sends[2 := Waits0("A")])
  // The first send gives up: it frees the folder with the old instance, asks for it again and gets it at once.
  const A_FREED := A_BOTH.(insts := [A_OLD], live := map[], claims := C.State(map[], map[], [0], 1))
  const A_ASKS := A_FREED.(
    sends := A_BOTH.sends[1 := Waits0("A").(at := AwaitFolder(1))],
    claims := C.State(map["/f" := C.Folder("A", [])], map["A" := "/f"], [0, 1], 2))
  const A_READY := A_ASKS.(sends := A_BOTH.sends[1 := Waits0("A").(at := Ready)])
  const A_BOOTS := A_READY.(
    sends := A_BOTH.sends[1 := Waits0("A").(at := Booting)], booting := map["A" := FOR_A.(send := Some(1))])
  const A_AGAIN := A_BOOTS.(
    insts := [A_OLD, A_NEW], live := map["A" := 1], booting := map[],
    sends := A_BOTH.sends[1 := Waits0("A").(at := AwaitTag)])

  lemma AReloads(es: seq<Event>, end: State)
    requires Leads(SHARED, A_RELOADS, es, end)
    ensures Leads(SHARED, A_RUNS, [Reload("A")] + es, end)
  {
    LeadsStep(SHARED, A_RUNS, Reload("A"), A_RELOADS, es, end);
  }

  lemma ALetsGo()
    ensures WellFormed(A_BOTH) && LetGo(A_BOTH, "A", 0) == A_FREED
  {
    assert C.Released(A_RUNS.claims, "A") == C.State(map[], map[], [0], 1);
  }

  lemma AAsksAgain()
    ensures WellFormed(A_FREED) && AskOrBoot(SHARED, A_FREED, 1) == A_ASKS
  {
    assert C.Acquired(A_FREED.claims, "/f", "A") == A_ASKS.claims;
  }

  lemma AGivesUp(es: seq<Event>, end: State)
    requires Leads(SHARED, A_ASKS, es, end)
    ensures Leads(SHARED, A_BOTH, [GiveUp(1)] + es, end)
  {
    ALetsGo();
    AAsksAgain();
    assert NeedsFolder(SHARED, A_FREED, "A");
    LeadsStep(SHARED, A_BOTH, GiveUp(1), A_ASKS, es, end);
  }

  lemma ABootsAgain(es: seq<Event>, end: State)
    requires Leads(SHARED, A_BOOTS, es, end)
    ensures Leads(SHARED, A_ASKS, [Wake(1)] + ([Continue(1)] + es), end)
  {
    LeadsStep(SHARED, A_READY, Continue(1), A_BOOTS, es, end);
    LeadsStep(SHARED, A_ASKS, Wake(1), A_READY, [Continue(1)] + es, end);
  }

  lemma ABootSucceeds()
    ensures WellFormed(A_BOOTS) && BootSucceeds(A_BOOTS, "A") == A_AGAIN
  {
  }

  lemma AIsBack(es: seq<Event>, end: State)
    requires Leads(SHARED, A_AGAIN, es, end)
    ensures Leads(SHARED, A_BOOTS, [BootDone("A")] + es, end)
  {
    ABootSucceeds();
    BootsUp(SHARED, A_BOOTS, "A", es, end);
  }

  lemma AIsReplaced(es: seq<Event>, end: State) returns (es': seq<Event>)
    requires Leads(SHARED, A_AGAIN, es, end)
    ensures Leads(SHARED, A_RELOADS, es', end)
  {
    var es3 := [Wake(1)] + ([Continue(1)] + ([BootDone("A")] + es));
    var es2 := [GiveUp(1)] + es3;
    var es1 := [NewSend(2, "A", false, None, None)] + ([Continue(2)] + es2);
    AIsBack(es, end);
    ABootsAgain([BootDone("A")] + es, end);
    AGivesUp(es3, end);
    MessageWaits(SHARED, A_ONE, "A", 2, es2, end);
    MessageWaits(SHARED, A_RELOADS, "A", 1, es1, end);
    es' := [NewSend(1, "A", false, None, None)] + ([Continue(1)] + es1);
  }

  lemma AComesBack(es: seq<Event>, end: State) returns (es': seq<Event>)
    requires Leads(SHARED, A_AGAIN, es, end)
    ensures Leads(SHARED, INITIAL, es', end)
  {
    var es1 := AIsReplaced(es, end);
    AReloads(es1, end);
    ARuns([Reload("A")] + es1, end);
    ATakesTheFolder([BootDone("A")] + ([Reload("A")] + es1), end);
    es' := [NewSend(0, "A", false, None, None)]
           + ([Continue(0)] + ([Wake(0)] + ([Continue(0)] + ([BootDone("A")] + ([Reload("A")] + es1)))));
  }

  /** A is live in its folder, alone there, and a send of it still waits for the old instance. */
  ghost predicate HoldsAlone(st: State) {
    && WellFormed(st) && |st.insts| == 2 && st.live == map["A" := 1] && st.booting == map[] && st.insts[1] == A_NEW
    && st.reloadAfterTurn == {} && st.checks == map[] && 3 !in st.sends && 2 in st.sends && st.sends[2] == Waits0("A")
    && st.claims == C.State(map["/f" := C.Folder("A", [])], map["A" := "/f"], [0, 1], 2)
  }

  lemma AHoldsAlone()
    ensures HoldsAlone(A_AGAIN)
  {
  }

  /** While the second send boots beside it, the live instance ends its turn, which frees the folder. */
  function HandsOn(st: State): State
    requires HoldsAlone(st)
  {
    BesideIs(st, "A");
    AfterResult(SHARED, Beside(st, "A"), 1, Succeeded(false), 5)
  }

  lemma HandsOnIs(st: State)
    requires HoldsAlone(st)
    ensures var st' := HandsOn(st);
            && WellFormed(st') && st'.live == st.live && st'.booting.Keys == {"A"} && |st'.insts| == 2
            && "/f" !in st'.claims.folders && 3 !in st'.sends
  {
    BesideIs(st, "A");
    ResultFields(SHARED, Beside(st, "A"), 1, Succeeded(false), 5, false);
    C.ReleaseKeepsLinks(st.claims, "A");
  }

  lemma EndsItsFolder(st: State, es: seq<Event>, end: State)
    requires HoldsAlone(st) && WellFormed(HandsOn(st)) && Leads(SHARED, HandsOn(st), es, end)
    ensures WellFormed(Beside(st, "A")) && Leads(SHARED, Beside(st, "A"), [Result(1, Succeeded(false), 5)] + es, end)
  {
    BesideIs(st, "A");
    LeadsStep(SHARED, Beside(st, "A"), Result(1, Succeeded(false), 5), HandsOn(st), es, end);
  }

  lemma TakenIs(st: State)
    requires WellFormed(st) && "/f" !in st.claims.folders && "B" !in st.claims.held && "A" in st.booting
    ensures var st' := Taken(SHARED, st, 3, "B");
            && WellFormed(st') && "A" in st'.booting && "B" in st'.booting
            && "/f" in st'.claims.folders && st'.claims.folders["/f"].holder == "B"
  {
  }

  lemma BTakesItOver(st: State) returns (es: seq<Event>, end: State)
    requires HoldsAlone(st)
    ensures Leads(SHARED, st, es, end) && TwoTurns(end)
  {
    HandsOnIs(st);
    var freed := HandsOn(st);
    TakenIs(freed);
    BothBootHere(Taken(SHARED, freed, 3, "B"));
    end := BootSucceeds(BootSucceeds(Taken(SHARED, freed, 3, "B"), "B"), "A");
    var es2 := [BootDone("B")] + ([BootDone("A")] + []);
    TakesFreeFolder(SHARED, freed, 3, "B", es2, end);
    var es1 := [NewSend(3, "B", false, None, None)] + ([Continue(3)] + ([Wake(3)] + ([Continue(3)] + es2)));
    EndsItsFolder(st, es1, end);
    SecondGivesUp(SHARED, st, "A", [Result(1, Succeeded(false), 5)] + es1, end);
    es := [GiveUp(2)] + ([Result(1, Succeeded(false), 5)] + es1);
  }

  /**
   * A second send that gives up boots A beside itself; A's turn ends and frees the folder, and A boots there
   * all the same.
   */
  lemma GiveUpBreaksExclusion() returns (es: seq<Event>)
    ensures Sound(SHARED, INITIAL) && Possible(SHARED, INITIAL, es) && TwoTurns(Run(SHARED, INITIAL, es))
  {
    AHoldsAlone();
    var es1, end := BTakesItOver(A_AGAIN);
    es := AComesBack(es1, end);
    LeadsFromTheStart(SHARED, es, end);
  }
}
