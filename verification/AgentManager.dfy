/**
 * The agent manager (src/agent/manager.ts) as a state machine. One step is one
 * stretch of the source between two `await`s; sends, boots, check starts and
 * query loops are suspended in between, and any of them may go next.
 *
 * What the environment is taken to do: at most one boot of a session is in
 * flight, and raw commands (`triggerCommand`) are not pushed.
 */
module AgentManager {
  import opened Common
  import C = WorkspaceClaims
  import T = TurnBook

  type Id = C.Id
  type RunId = T.RunId

  /** `home` names the proactive folder of each session that has one; `budgeted`: a check budget is installed. */
  datatype Config = Config(home: map<Id, C.Dir>, budgeted: bool)

  /** One booted CLI instance of a session. */
  datatype Instance = Instance(
    sid: Id,
    book: T.Book,
    firstSynthetic: bool,
    firstSender: Option<T.Sender>,
    bootFp: Option<string>,
    checkEnded: Option<nat>,      // the number of the check turn's input while one is in flight
    inAutoEvolve: bool,
    evolveRun: Option<RunId>,
    reloading: bool,
    closing: bool,
    aborted: bool,
    unwound: bool,                // its query loop has ended
    exited: bool)

  /** Where a suspended send is. */
  datatype Place =
    | Ready
    | AwaitExit(inst: nat)
    | AwaitCheck(inst: nat, no: nat)
    | AwaitFolder(ticket: nat)
    | Booting
    | AwaitTag

  datatype Send = Send(sid: Id, synthetic: bool, sender: Option<T.Sender>, run: Option<RunId>, at: Place)

  /** A boot in flight; `send` is the send waiting for it, None for the retry after a resume miss. */
  datatype Boot = Boot(synthetic: bool, sender: Option<T.Sender>, fp: Option<string>, send: Option<nat>)

  /** A check whose budgeted run is being started. */
  datatype CheckStart = CheckStart(sid: Id, inst: nat, seq_: nat)

  datatype State = State(
    insts: seq<Instance>,
    live: map<Id, nat>,
    booting: map<Id, Boot>,
    desiredFp: map<Id, string>,
    reloadAfterTurn: set<Id>,
    claims: C.State,
    sends: map<nat, Send>,
    checks: map<nat, CheckStart>,
    started: set<RunId>,          // check runs opened in the ledger
    finished: seq<RunId>)         // check runs ended, in order

  const INITIAL := State([], map[], map[], map[], {}, C.EMPTY, map[], map[], {}, [])

  /** How a turn ended, as far as the handler's branches tell turns apart. */
  datatype Outcome =
    | StreamClosed(restart: bool)     // the circuit breaker path; `restart` while it is still closed
    | Failed(keepsFlag: bool)         // `keepsFlag`: a resume miss or a wake
    | Succeeded(wantsCheck: bool)

  datatype Event =
    | NewSend(key: nat, sid: Id, synthetic: bool, sender: Option<T.Sender>, run: Option<RunId>)
    | Continue(key: nat)
    | Wake(key: nat)
    | GiveUp(key: nat)
    | SendFailed(key: nat)
    | BootDone(sid: Id)
    | BootFailed(sid: Id)
    | TagBoot(key: nat)
    | Result(inst: nat, outcome: Outcome, key: nat)
    | CheckRefused(key: nat)
    | CheckGranted(key: nat, checkRun: RunId, voice: bool)
    | Reload(sid: Id)
    | ReloadAfterTurn(sid: Id)
    | IdleClosed(inst: nat)
    | Abort(sid: Id)
    | AskFp(sid: Id, fp: string)
    | Unwind(inst: nat)
    | Exit(inst: nat)
    | Retry(inst: nat)

  // --------------------------------------------------------------- small parts

  ghost predicate LiveOk(insts: seq<Instance>, live: map<Id, nat>) {
    forall s :: s in live ==> live[s] < |insts| && insts[live[s]].sid == s && !insts[live[s]].exited
  }

  ghost predicate ChecksOk(insts: seq<Instance>, checks: map<nat, CheckStart>) {
    forall k :: k in checks ==> checks[k].inst < |insts| && insts[checks[k].inst].sid == checks[k].sid
  }

  ghost predicate WellFormed(st: State) {
    && C.Linked(st.claims) && C.NoSelfWait(st.claims)
    && LiveOk(st.insts, st.live)
    && ChecksOk(st.insts, st.checks)
  }

  function Holder(cfg: Config, st: State, sid: Id): Option<Id>
    requires sid in cfg.home
  {
    C.HolderOf(st.claims, cfg.home[sid])
  }

  /** The session works in a proactive folder it does not hold. */
  predicate NeedsFolder(cfg: Config, st: State, sid: Id) {
    sid in cfg.home && Holder(cfg, st, sid) != Some(sid)
  }

  predicate Owns(st: State, n: nat)
    requires n < |st.insts|
  {
    st.insts[n].sid in st.live && st.live[st.insts[n].sid] == n
  }

  predicate TurnInFlight(st: State, sid: Id)
    requires sid in st.live ==> st.live[sid] < |st.insts|
  {
    sid in st.live && st.insts[st.live[sid]].book.pendingInputs > 0
  }

  function Desired(st: State, sid: Id): Option<string> {
    if sid in st.desiredFp then Some(st.desiredFp[sid]) else None
  }

  function Put(st: State, n: nat, i: Instance): State
    requires n < |st.insts|
  {
    st.(insts := st.insts[n := i])
  }

  function Park(st: State, k: nat, at: Place): State
    requires k in st.sends
  {
    st.(sends := st.sends[k := st.sends[k].(at := at)])
  }

  function FreeFolder(st: State, sid: Id): State
    requires C.Linked(st.claims)
  {
    st.(claims := C.Released(st.claims, sid))
  }

  /** The `catch` of a send: free the folder unless the session runs or boots. */
  function FreeAfterFailure(cfg: Config, st: State, sid: Id): State
    requires WellFormed(st)
  {
    if sid in cfg.home && !TurnInFlight(st, sid) && sid !in st.booting then FreeFolder(st, sid) else st
  }

  function WithCheck(i: Instance): Instance {
    i.(checkEnded := Some(i.book.inputSeq + 1), inAutoEvolve := true, book := T.Pushed(i.book, true, None))
  }

  function FinishRun(st: State, r: Option<RunId>): State {
    if r.None? then st else st.(finished := st.finished + [r.value])
  }

  // --------------------------------------------------------------------- sends

  /** No live instance takes the input, so the next segment of the send starts a boot. */
  predicate StartsBoot(cfg: Config, st: State, sid: Id) {
    sid !in st.live && !NeedsFolder(cfg, st, sid)
  }

  function AskFolder(cfg: Config, st: State, k: nat): State
    requires k in st.sends && st.sends[k].sid in cfg.home
  {
    var sid := st.sends[k].sid;
    Park(st, k, AwaitFolder(st.claims.next)).(claims := C.Acquired(st.claims, cfg.home[sid], sid))
  }

  function PushInput(st: State, k: nat, n: nat): State
    requires k in st.sends && n < |st.insts|
  {
    var s := st.sends[k];
    var book := T.Step(st.insts[n].book, T.Sent(s.synthetic, s.sender, s.run));
    Put(st, n, st.insts[n].(book := book)).(sends := st.sends - {k})
  }

  function StartBoot(st: State, k: nat): State
    requires k in st.sends
  {
    var s := st.sends[k];
    Park(st, k, Booting).(booting := st.booting[s.sid := Boot(s.synthetic, s.sender, Desired(st, s.sid), Some(k))])
  }

  /** One pass through the loop of a send, up to its next `await`. */
  function SendSegment(cfg: Config, st: State, k: nat): State
    requires WellFormed(st) && k in st.sends
  {
    var sid := st.sends[k].sid;
    if sid in st.live && (st.insts[st.live[sid]].reloading || st.insts[st.live[sid]].closing) then
      Park(st, k, AwaitExit(st.live[sid]))
    else if sid in st.live && st.insts[st.live[sid]].checkEnded.Some? then
      Park(st, k, AwaitCheck(st.live[sid], st.insts[st.live[sid]].checkEnded.value))
    else if NeedsFolder(cfg, st, sid) then AskFolder(cfg, st, k)
    else if sid in st.live then PushInput(st, k, st.live[sid])
    else StartBoot(st, k)
  }

  predicate WaitOver(st: State, at: Place) {
    match at
    case AwaitExit(n) => n < |st.insts| && st.insts[n].exited
    case AwaitCheck(n, no) => n < |st.insts| && (st.insts[n].exited || st.insts[n].checkEnded != Some(no))
    case AwaitFolder(t) => t in st.claims.resolved
    case _ => false
  }

  /** A send gives up on an instance that does not exit: it is aborted and detached. */
  function Detached(st: State, n: nat): State
    requires WellFormed(st) && n < |st.insts|
  {
    var sid := st.insts[n].sid;
    var st1 := Put(st, n, st.insts[n].(aborted := true));
    FreeFolder(st1.(live := st.live - {sid}, reloadAfterTurn := st.reloadAfterTurn - {sid}), sid)
  }

  /** `abort`: the live instance, whichever it is, is told to stop. */
  function Aborted(st: State, sid: Id): State
    requires WellFormed(st)
  {
    var st1 := st.(reloadAfterTurn := st.reloadAfterTurn - {sid});
    if sid in st.live then Put(st1, st.live[sid], st.insts[st.live[sid]].(aborted := true)) else st1
  }

  /**
   * The state a send goes on from when the wait for instance `n` has lasted too long: `n` is detached only
   * while it is the live one.
   */
  function LetGo(st: State, sid: Id, n: nat): State
    requires WellFormed(st)
  {
    if sid in st.live && st.live[sid] == n then Detached(st, n) else Aborted(st, sid)
  }

  /** The rest of a send that takes no live instance: ask for the folder, or boot, whatever is live. */
  function AskOrBoot(cfg: Config, st: State, k: nat): State
    requires k in st.sends
  {
    if NeedsFolder(cfg, st, st.sends[k].sid) then AskFolder(cfg, st, k) else StartBoot(st, k)
  }

  function GivenUp(cfg: Config, st: State, k: nat, n: nat): State
    requires WellFormed(st) && k in st.sends
  {
    AskOrBoot(cfg, LetGo(st, st.sends[k].sid, n), k)
  }

  function NewInstance(sid: Id, b: Boot): Instance {
    Instance(sid, T.Booted(b.synthetic, b.sender), b.synthetic, b.sender, b.fp,
             None, false, None, false, false, false, false, false)
  }

  function BootSucceeds(st: State, sid: Id): State
    requires sid in st.booting
  {
    var b := st.booting[sid];
    st.(insts := st.insts + [NewInstance(sid, b)],
        live := st.live[sid := |st.insts|],
        booting := st.booting - {sid},
        sends := if b.send.Some? && b.send.value in st.sends
                 then st.sends[b.send.value := st.sends[b.send.value].(at := AwaitTag)]
                 else st.sends)
  }

  function BootFails(cfg: Config, st: State, sid: Id): State
    requires WellFormed(st) && sid in st.booting
  {
    var b := st.booting[sid];
    var st1 := st.(booting := st.booting - {sid});
    if b.send.Some? then FreeAfterFailure(cfg, st1.(sends := st.sends - {b.send.value}), sid)
    else if sid !in st.live then FreeFolder(st1, sid)
    else st1
  }

  function TagAfterBoot(st: State, k: nat): State
    requires WellFormed(st) && k in st.sends
  {
    var s := st.sends[k];
    var st1 := st.(sends := st.sends - {k});
    if s.run.Some? && s.sid in st.live then
      var n := st.live[s.sid];
      Put(st1, n, st.insts[n].(book := T.Step(st.insts[n].book, T.BootTag(s.run.value))))
    else st1
  }

  // ------------------------------------------------------------ turns and checks

  /** The check run a result ends. */
  function EndedCheckRun(i: Instance): Option<RunId> {
    if i.inAutoEvolve then i.evolveRun else None
  }

  /** The turn qualifies for a check turn. */
  predicate ChecksAfter(i: Instance, o: Outcome, deferred: bool) {
    o.Succeeded? && o.wantsCheck && !i.inAutoEvolve && !deferred
  }

  /**
   * The instance after a result; `deferred`: a reload was waiting for this result. An unbudgeted check is
   * pushed at once.
   */
  function ResultInstance(cfg: Config, i: Instance, o: Outcome, deferred: bool): Instance {
    var checks := ChecksAfter(i, o, deferred) && !cfg.budgeted;
    i.(checkEnded := if checks then Some(i.book.inputSeq + 1) else None,
       inAutoEvolve := checks || (i.inAutoEvolve && (o.StreamClosed? || (o.Failed? && o.keepsFlag))),
       book := if checks then T.Pushed(T.Ended(i.book), true, None) else T.Ended(i.book),
       evolveRun := if i.inAutoEvolve then None else i.evolveRun,
       reloading := i.reloading || deferred || (o.StreamClosed? && o.restart))
  }

  /** The result is the one that a reload waits for. */
  predicate Deferred(st: State, n: nat)
    requires n < |st.insts|
  {
    T.Ended(st.insts[n].book).pendingInputs == 0 && st.insts[n].sid in st.reloadAfterTurn
  }

  function AfterResult(cfg: Config, st: State, n: nat, o: Outcome, k: nat): State
    requires WellFormed(st) && n < |st.insts|
  {
    var i := st.insts[n];
    var idle := T.Ended(i.book).pendingInputs == 0;
    var deferred := idle && i.sid in st.reloadAfterTurn;
    var i' := ResultInstance(cfg, i, o, deferred);
    FinishRun(Put(st, n, i'), EndedCheckRun(i)).(
      reloadAfterTurn := if idle then st.reloadAfterTurn - {i.sid} else st.reloadAfterTurn,
      checks := if ChecksAfter(i, o, deferred) && cfg.budgeted && idle
                then st.checks[k := CheckStart(i.sid, n, i.book.inputSeq)]
                else st.checks,
      claims := if i'.book.pendingInputs > 0 then st.claims else C.Released(st.claims, i.sid))
  }

  /** The session moved on while its check run was being started. */
  predicate MovedOn(st: State, c: CheckStart, voice: bool)
    requires c.inst < |st.insts|
  {
    var i := st.insts[c.inst];
    || c.sid !in st.live || st.live[c.sid] != c.inst
    || i.book.inputSeq != c.seq_ || i.book.pendingInputs > 0
    || i.inAutoEvolve || i.reloading || i.aborted
    || c.sid in st.reloadAfterTurn || voice
  }

  /** A granted check start is pushed, not abandoned. */
  predicate PushesCheck(cfg: Config, st: State, c: CheckStart, voice: bool)
    requires c.inst < |st.insts|
  {
    && !MovedOn(st, c, voice)
    && (c.sid in cfg.home ==> Holder(cfg, st, c.sid) in {None, Some(c.sid)})
  }

  function AfterGrant(cfg: Config, st: State, k: nat, run: RunId, voice: bool): State
    requires WellFormed(st) && k in st.checks
  {
    var c := st.checks[k];
    var st1 := st.(checks := st.checks - {k}, started := st.started + {run});
    if !PushesCheck(cfg, st, c, voice) then FinishRun(st1, Some(run))
    else
      Put(st1, c.inst, WithCheck(st.insts[c.inst].(evolveRun := Some(run))))
      .(claims := if c.sid in cfg.home then C.Acquired(st.claims, cfg.home[c.sid], c.sid) else st.claims)
  }

  // ---------------------------------------------------------- reload, exit, retry

  function Reloaded(st: State, sid: Id): State
    requires WellFormed(st)
  {
    if sid in st.live then Put(st, st.live[sid], st.insts[st.live[sid]].(reloading := true)) else st
  }

  function ReloadedAfterTurn(st: State, sid: Id): State
    requires WellFormed(st)
  {
    if sid !in st.live || st.insts[st.live[sid]].reloading then st
    else if st.insts[st.live[sid]].book.pendingInputs > 0 then st.(reloadAfterTurn := st.reloadAfterTurn + {sid})
    else Reloaded(st, sid)
  }

  function FpAsked(st: State, sid: Id, fp: string): State
    requires WellFormed(st)
  {
    var st1 := st.(desiredFp := st.desiredFp[sid := fp]);
    if sid in st.live && st.insts[st.live[sid]].bootFp != Some(fp) then ReloadedAfterTurn(st1, sid) else st1
  }

  /** The query loop of an instance has ended: the first part of its teardown. */
  function Unwound(st: State, n: nat): State
    requires n < |st.insts|
  {
    var i := st.insts[n];
    var st1 := FinishRun(Put(st, n, i.(evolveRun := None, unwound := true)), i.evolveRun);
    if Owns(st, n) then st1.(reloadAfterTurn := st.reloadAfterTurn - {i.sid}) else st1
  }

  /** The second part, after the session row was written. */
  function Exited(st: State, n: nat): State
    requires WellFormed(st) && n < |st.insts|
  {
    var i := st.insts[n];
    var st1 := Put(st, n, i.(exited := true));
    if Owns(st, n)
    then FreeFolder(st1.(live := st.live - {i.sid}, reloadAfterTurn := st.reloadAfterTurn - {i.sid}), i.sid)
    else st1
  }

  /**
   * A resume miss: whatever instance is live leaves, and the instance's first input boots again,
   * without asking for the folder.
   */
  function Retried(st: State, n: nat): State
    requires n < |st.insts|
  {
    var i := st.insts[n];
    FinishRun(Put(st, n, i.(evolveRun := None, unwound := true, exited := true)), i.evolveRun)
    .(live := st.live - {i.sid},
      booting := st.booting[i.sid := Boot(i.firstSynthetic, i.firstSender, Desired(st, i.sid), None)])
  }

  // ------------------------------------------------------------------- the steps

  ghost predicate Enabled(cfg: Config, st: State, e: Event)
    requires WellFormed(st)
  {
    match e
    case NewSend(k, _, _, _, _) => k !in st.sends
    case Continue(k) =>
      && k in st.sends && st.sends[k].at == Ready
      && (StartsBoot(cfg, st, st.sends[k].sid) ==> st.sends[k].sid !in st.booting)
    case Wake(k) => k in st.sends && WaitOver(st, st.sends[k].at)
    case GiveUp(k) =>
      && k in st.sends && st.sends[k].at.AwaitExit?
      && (!NeedsFolder(cfg, LetGo(st, st.sends[k].sid, st.sends[k].at.inst), st.sends[k].sid) ==>
          st.sends[k].sid !in st.booting)
    case SendFailed(k) => k in st.sends && st.sends[k].at != Booting
    case BootDone(sid) => sid in st.booting
    case BootFailed(sid) => sid in st.booting
    case TagBoot(k) => k in st.sends && st.sends[k].at == AwaitTag
    case Result(n, _, k) => n < |st.insts| && Owns(st, n) && !st.insts[n].unwound && k !in st.checks
    case CheckRefused(k) => k in st.checks
    case CheckGranted(k, run, _) => k in st.checks && run !in st.started
    case IdleClosed(n) => n < |st.insts| && !st.insts[n].unwound && st.insts[n].book.pendingInputs == 0
    case Unwind(n) => n < |st.insts| && !st.insts[n].unwound
    case Exit(n) => n < |st.insts| && st.insts[n].unwound && !st.insts[n].exited
    case Retry(n) => n < |st.insts| && !st.insts[n].unwound && st.insts[n].sid !in st.booting
    case _ => true
  }

  ghost function Next(cfg: Config, st: State, e: Event): State
    requires WellFormed(st) && Enabled(cfg, st, e)
  {
    match e
    case NewSend(k, sid, synthetic, sender, run) =>
      st.(sends := st.sends[k := Send(sid, synthetic, sender, run, Ready)])
    case Continue(k) => SendSegment(cfg, st, k)
    case Wake(k) => Park(st, k, Ready)
    case GiveUp(k) => GivenUp(cfg, st, k, st.sends[k].at.inst)
    case SendFailed(k) => FreeAfterFailure(cfg, st.(sends := st.sends - {k}), st.sends[k].sid)
    case BootDone(sid) => BootSucceeds(st, sid)
    case BootFailed(sid) => BootFails(cfg, st, sid)
    case TagBoot(k) => TagAfterBoot(st, k)
    case Result(n, o, k) => AfterResult(cfg, st, n, o, k)
    case CheckRefused(k) => st.(checks := st.checks - {k})
    case CheckGranted(k, run, voice) => AfterGrant(cfg, st, k, run, voice)
    case Reload(sid) => Reloaded(st, sid)
    case ReloadAfterTurn(sid) => ReloadedAfterTurn(st, sid)
    case IdleClosed(n) => Put(st, n, st.insts[n].(closing := true))
    case Abort(sid) => Aborted(st, sid)
    case AskFp(sid, fp) => FpAsked(st, sid, fp)
    case Unwind(n) => Unwound(st, n)
    case Exit(n) => Exited(st, n)
    case Retry(n) => Retried(st, n)
  }

  /** What every branch of a result does to its instance. */
  function TurnOver(i: Instance, run: Option<RunId>, inAutoEvolve: bool, reloading: bool): Instance {
    i.(checkEnded := None, book := T.Ended(i.book), evolveRun := run, inAutoEvolve := inAutoEvolve,
      reloading := reloading)
  }

  lemma ResultFields(cfg: Config, st: State, n: nat, o: Outcome, k: nat, deferred: bool)
    requires WellFormed(st) && n < |st.insts|
    requires deferred == Deferred(st, n)
    ensures var i := st.insts[n];
            var i', idle := ResultInstance(cfg, i, o, deferred), T.Ended(i.book).pendingInputs == 0;
            AfterResult(cfg, st, n, o, k) ==
            State(st.insts[n := i'], st.live, st.booting, st.desiredFp,
                  if idle then st.reloadAfterTurn - {i.sid} else st.reloadAfterTurn,
                  if i'.book.pendingInputs > 0 then st.claims else C.Released(st.claims, i.sid),
                  st.sends,
                  if ChecksAfter(i, o, deferred) && cfg.budgeted && idle
                  then st.checks[k := CheckStart(i.sid, n, i.book.inputSeq)]
                  else st.checks,
                  st.started,
                  if EndedCheckRun(i).None? then st.finished else st.finished + [EndedCheckRun(i).value])
  {
  }

  lemma GrantFields(cfg: Config, st: State, k: nat, run: RunId, voice: bool)
    requires WellFormed(st) && k in st.checks
    ensures var c := st.checks[k];
            AfterGrant(cfg, st, k, run, voice) ==
            if PushesCheck(cfg, st, c, voice)
            then State(st.insts[c.inst := WithCheck(st.insts[c.inst].(evolveRun := Some(run)))],
                       st.live, st.booting, st.desiredFp, st.reloadAfterTurn,
                       if c.sid in cfg.home then C.Acquired(st.claims, cfg.home[c.sid], c.sid) else st.claims,
                       st.sends, st.checks - {k}, st.started + {run}, st.finished)
            else State(st.insts, st.live, st.booting, st.desiredFp, st.reloadAfterTurn, st.claims, st.sends,
                       st.checks - {k}, st.started + {run}, st.finished + [run])
  {
  }

  // ------------------------------------------------------------------ the class

  /**
   * The manager object. Each method is one stretch of the source between two
   * `await`s, written on its maps and sets; instances are kept by number.
   */
  class Manager {
    const cfg: Config
    var insts: seq<Instance>
    var live: map<Id, nat>
    var booting: map<Id, Boot>
    var desiredFp: map<Id, string>
    var reloadAfterTurn: set<Id>
    var claims: C.State
    var sends: map<nat, Send>
    var checks: map<nat, CheckStart>
    var started: set<RunId>
    var finished: seq<RunId>

    ghost function View(): State
      reads this
    {
      State(insts, live, booting, desiredFp, reloadAfterTurn, claims, sends, checks, started, finished)
    }

    constructor (cfg: Config)
      ensures View() == INITIAL && this.cfg == cfg
    {
      this.cfg := cfg;
      insts, live, booting, desiredFp, reloadAfterTurn := [], map[], map[], map[], {};
      claims, sends, checks, started, finished := C.EMPTY, map[], map[], {}, [];
    }

    /** One pass through the loop of a send: wait, ask for the folder, push the input, or start a boot. */
    method ContinueSend(k: nat)
      requires WellFormed(View()) && k in sends
      modifies this
      ensures View() == SendSegment(cfg, old(View()), k)
    {
      var s := sends[k];
      if s.sid in live {
        var n := live[s.sid];
        if insts[n].reloading || insts[n].closing {
          sends := sends[k := s.(at := AwaitExit(n))];
          return;
        }
        if insts[n].checkEnded.Some? {
          sends := sends[k := s.(at := AwaitCheck(n, insts[n].checkEnded.value))];
          return;
        }
      }
      if s.sid in live && !(s.sid in cfg.home && C.HolderOf(claims, cfg.home[s.sid]) != Some(s.sid)) {
        var n := live[s.sid];
        insts := insts[n := insts[n].(book := T.Step(insts[n].book, T.Sent(s.synthetic, s.sender, s.run)))];
        sends := sends - {k};
        return;
      }
      AskFolderOrBoot(k);
    }

    /** `abort` of the session, and the end of instance `n` if it is the live one. */
    method LetGoOf(sid: Id, n: nat)
      requires WellFormed(View())
      modifies this
      ensures View() == LetGo(old(View()), sid, n)
    {
      reloadAfterTurn := reloadAfterTurn - {sid};
      if sid in live {
        var m := live[sid];
        insts := insts[m := insts[m].(aborted := true)];
        if m == n {
          live := live - {sid};
          claims := C.Released(claims, sid);
        }
      }
    }

    /** What is left of a send without an instance to push into. */
    method AskFolderOrBoot(k: nat)
      requires k in sends
      modifies this
      ensures View() == AskOrBoot(cfg, old(View()), k)
    {
      var s := sends[k];
      if s.sid in cfg.home && C.HolderOf(claims, cfg.home[s.sid]) != Some(s.sid) {
        sends := sends[k := s.(at := AwaitFolder(claims.next))];
        claims := C.Acquired(claims, cfg.home[s.sid], s.sid);
        return;
      }
      var fp := if s.sid in desiredFp then Some(desiredFp[s.sid]) else None;
      booting := booting[s.sid := Boot(s.synthetic, s.sender, fp, Some(k))];
      sends := sends[k := s.(at := Booting)];
    }

    /**
     * The wait for instance `n` has lasted too long: the live instance is aborted, detached only if
     * it is `n`, and the send asks for its folder or boots.
     */
    method GiveUpOn(k: nat, n: nat)
      requires WellFormed(View()) && k in sends
      modifies this
      ensures View() == GivenUp(cfg, old(View()), k, n)
    {
      LetGoOf(sends[k].sid, n);
      AskFolderOrBoot(k);
    }

    /** The fields of an instance that its `result` updates, branch by branch. */
    method EndTurn(i: Instance, o: Outcome, deferred: bool) returns (i1: Instance)
      ensures i1 == ResultInstance(cfg, i, o, deferred)
    {
      var run := if i.inAutoEvolve then None else i.evolveRun;
      match o {
        case StreamClosed(restart) =>
          i1 := TurnOver(i, run, i.inAutoEvolve, i.reloading || restart || deferred);
        case Failed(keepsFlag) =>
          i1 := TurnOver(i, run, i.inAutoEvolve && keepsFlag, i.reloading || deferred);
        case Succeeded(wantsCheck) =>
          i1 := TurnOver(i, run, false, i.reloading || deferred);
          if !i.inAutoEvolve && !deferred && wantsCheck && !cfg.budgeted {
            i1 := WithCheck(i1);
          }
      }
    }

    /** A `result` of the live instance `n`. */
    method HandleResult(n: nat, o: Outcome, k: nat)
      requires WellFormed(View()) && n < |insts|
      modifies this
      ensures View() == AfterResult(cfg, old(View()), n, o, k)
    {
      var i := insts[n];
      var idle := i.book.pendingInputs <= 1;
      var deferred := idle && i.sid in reloadAfterTurn;
      ResultFields(cfg, View(), n, o, k, deferred);
      if i.inAutoEvolve && i.evolveRun.Some? {
        finished := finished + [i.evolveRun.value];
      }
      if idle {
        reloadAfterTurn := reloadAfterTurn - {i.sid};
      }
      var i1 := EndTurn(i, o, deferred);
      insts := insts[n := i1];
      if o.Succeeded? && o.wantsCheck && !i.inAutoEvolve && !deferred && cfg.budgeted && idle {
        checks := checks[k := CheckStart(i.sid, n, i.book.inputSeq)];
      }
      if i1.book.pendingInputs == 0 {
        claims := C.Released(claims, i.sid);
      }
    }

    /** The budget granted the run of check start `k`: abandon it or push the check. */
    method CheckStarted(k: nat, run: RunId, voice: bool)
      requires WellFormed(View()) && k in checks
      modifies this
      ensures View() == AfterGrant(cfg, old(View()), k, run, voice)
    {
      var c := checks[k];
      var i := insts[c.inst];
      GrantFields(cfg, View(), k, run, voice);
      checks := checks - {k};
      started := started + {run};
      var movedOn :=
        || c.sid !in live || live[c.sid] != c.inst || i.book.inputSeq != c.seq_ || i.book.pendingInputs > 0
        || i.inAutoEvolve || i.reloading || i.aborted || c.sid in reloadAfterTurn || voice;
      if movedOn {
        finished := finished + [run];
        return;
      }
      if c.sid in cfg.home {
        var holder := C.HolderOf(claims, cfg.home[c.sid]);
        if holder.Some? && holder.value != c.sid {
          finished := finished + [run];
          return;
        }
        claims := C.Acquired(claims, cfg.home[c.sid], c.sid);
      }
      insts := insts[c.inst := WithCheck(i.(evolveRun := Some(run)))];
    }

    method ReloadAfterTurn(sid: Id) returns (isLive: bool)
      requires WellFormed(View())
      modifies this
      ensures View() == ReloadedAfterTurn(old(View()), sid) && isLive == (sid in live)
    {
      if sid !in live {
        return false;
      }
      var n := live[sid];
      if insts[n].reloading {
        return true;
      }
      if insts[n].book.pendingInputs > 0 {
        reloadAfterTurn := reloadAfterTurn + {sid};
        return true;
      }
      insts := insts[n := insts[n].(reloading := true)];
      return true;
    }

    /** The query loop of instance `n` ended: its open check run ends with it. */
    method LoopEnded(n: nat)
      requires n < |insts|
      modifies this
      ensures View() == Unwound(old(View()), n)
    {
      var i := insts[n];
      if i.evolveRun.Some? {
        finished := finished + [i.evolveRun.value];
      }
      insts := insts[n := i.(evolveRun := None, unwound := true)];
      if i.sid in live && live[i.sid] == n {
        reloadAfterTurn := reloadAfterTurn - {i.sid};
      }
    }

    /** The end of the teardown: the session leaves, unless a fresh instance has its id, and frees its folder. */
    method SessionExit(n: nat)
      requires WellFormed(View()) && n < |insts|
      modifies this
      ensures View() == Exited(old(View()), n)
    {
      var i := insts[n];
      insts := insts[n := i.(exited := true)];
      if i.sid in live && live[i.sid] == n {
        live := live - {i.sid};
        reloadAfterTurn := reloadAfterTurn - {i.sid};
        claims := C.Released(claims, i.sid);
      }
    }
  }
}
