/**
 * The budget protocol between concurrent background runs (src/background/runner.ts,
 * skill-check.ts, budget.ts): insert a row carrying the estimate, re-check, spend turn
 * by turn, settle. Every ledger read and write is a step of its own, and the steps of
 * any number of runs on any number of replicas interleave freely.
 */
module Budget {
  import opened Common
  import opened Ledger

  /** Where a run is. `left` is what its re-check read as remaining, `reserve` what it left for the nightly. */
  datatype Phase =
    | Inserted
    | Weighed(left: int)
    | Asking(left: int)
    | Refusing
    | Running(left: int, reserve: nat, recorded: bool)
    | Checking(left: int, reserve: nat)
    | Stopping(left: int, reserve: nat)
    | Closed

  /** The ledger, and the phase of the run behind each row. */
  datatype State = State(rows: seq<Row>, phases: seq<Phase>)

  type Configs = string -> Config

  /** The passes of the runner record after every turn; the others are one turn, settled once. */
  predicate TurnByTurn(p: Pass) {
    p == NightlyReview || p == LessonsUpkeep || p == QuietMoment || p == SkillReview || p == Heartbeat
  }

  datatype Event =
    | Insert(agent: string, pass: Pass, day: string, startedAt: int, estimate: nat)
    | Note(agent: string, pass: Pass, day: string, startedAt: int, outcome: Outcome)
    | ReadSpent(id: nat)
    | ReadNightly(id: nat)
    | ReadEstimate(id: nat)
    | Refuse(id: nat)
    | Fail(id: nat)
    | Record(id: nat, cost: nat)
    | CheckLimit(id: nat)
    | Finish(id: nat, ok: bool)
    | Settle(id: nat, cost: nat, outcome: Outcome)

  datatype Move = Move(row: Row, phase: Phase)

  /** The re-check's verdict once the reserve is known. */
  function Decided(left: int, reserve: nat): Phase {
    if left - reserve < 0 then Refusing else Running(left, reserve, false)
  }

  function Close(r: Row, cost: nat, outcome: Outcome): Move {
    Move(r.(cost := cost, outcome := Some(outcome)), Closed)
  }

  /** `finishOpen`: a row that is no longer open keeps what it has. */
  function CloseOpen(r: Row, cost: nat, outcome: Outcome): Move {
    if r.outcome.None? then Close(r, cost, outcome) else Move(r, Closed)
  }

  /** What one step of a run does to its row and phase, if the run can take it. */
  ghost function MoveOf(cfg: Config, rows: seq<Row>, r: Row, p: Phase, e: Event): Option<Move> {
    match e
    case ReadSpent(_) =>
      if p.Inserted? then Some(Move(r, Weighed(Remaining(cfg, rows, r.agent, r.pass, r.day)))) else None
    case ReadNightly(_) =>
      if !p.Weighed? then None
      else if !BehindNightly(cfg, r.pass) || RanOn(rows, r.agent, NightlyReview, r.day)
      then Some(Move(r, Decided(p.left, 0)))
      else Some(Move(r, Asking(p.left)))
    case ReadEstimate(_) =>
      if p.Asking? then Some(Move(r, Decided(p.left, EstimateFor(rows, r.agent, NightlyReview)))) else None
    case Refuse(_) =>
      if !p.Refusing? then None
      else Some(if TurnByTurn(r.pass) then Close(r, 0, SkippedBudget) else CloseOpen(r, 0, SkippedBudget))
    case Fail(_) =>
      if TurnByTurn(r.pass) && (p.Inserted? || p.Weighed? || p.Asking?) then Some(Close(r, 0, Error)) else None
    case Record(_, cost) =>
      if TurnByTurn(r.pass) && p.Running?
      then Some(Move(if r.outcome.None? then r.(cost := cost) else r, Checking(p.left, p.reserve))) else None
    case CheckLimit(_) =>
      if !p.Checking? then None
      else if OverLimit(cfg, rows, r.agent, r.pass, r.day) then Some(Move(r, Stopping(p.left, p.reserve)))
      else Some(Move(r, Running(p.left, p.reserve, true)))
    case Finish(_, ok) =>
      if !TurnByTurn(r.pass) then None
      else if p.Running? then Some(Close(r, if p.recorded then r.cost else 0, if ok then Ok else Error))
      else if p.Checking? then Some(Close(r, r.cost, if ok then Ok else Error))
      else if p.Stopping? then Some(Close(r, r.cost, StoppedBudget))
      else None
    case Settle(_, cost, outcome) =>
      if !TurnByTurn(r.pass) && p.Running? then Some(CloseOpen(r, cost, outcome)) else None
    case _ => None
  }

  function Put(s: State, id: nat, m: Move): State
    requires id < |s.rows| && id < |s.phases|
  {
    State(s.rows[id := m.row], s.phases[id := m.phase])
  }

  function Append(s: State, m: Move): State {
    State(s.rows + [m.row], s.phases + [m.phase])
  }

  ghost function Next(cfgs: Configs, s: State, e: Event): Option<State> {
    match e
    case Insert(agent, pass, day, startedAt, estimate) =>
      if pass == Digest then None else Some(Append(s, Move(Row(agent, pass, day, startedAt, estimate, None), Inserted)))
    case Note(agent, pass, day, startedAt, outcome) =>
      Some(Append(s, Move(Row(agent, pass, day, startedAt, 0, Some(outcome)), Closed)))
    case _ =>
      if e.id >= |s.rows| || e.id >= |s.phases| then None
      else
        var m := MoveOf(cfgs(s.rows[e.id].agent), s.rows, s.rows[e.id], s.phases[e.id], e);
        if m.None? then None else Some(Put(s, e.id, m.value))
  }

  /** The state after a history, if every step of it was possible. */
  ghost function Play(cfgs: Configs, es: seq<Event>): Option<State> {
    if es == [] then Some(State([], []))
    else
      var before := Play(cfgs, es[..|es| - 1]);
      if before.None? then None else Next(cfgs, before.value, es[|es| - 1])
  }

  /** Every write of the protocol is one of the ledger's own. */
  lemma WritesAreTheLedgers(cfgs: Configs, s: State, e: Event)
    requires Next(cfgs, s, e).Some?
    ensures var rows := Next(cfgs, s, e).value.rows;
            match e
            case Insert(a, p, d, at, c) => rows == s.rows + [Row(a, p, d, at, c, None)]
            case Note(a, p, d, at, o) => rows == Finished(s.rows + [Row(a, p, d, at, 0, None)], |s.rows|, 0, o)
            case Record(id, c) => rows == Progressed(s.rows, id, c)
            case Settle(id, c, o) => rows == if Open(s.rows, id) then Finished(s.rows, id, c, o) else s.rows
            case Finish(id, ok) =>
              var p := s.phases[id];
              rows == Finished(s.rows, id, if p.Running? && !p.recorded then 0 else s.rows[id].cost,
                               if p.Stopping? then StoppedBudget else if ok then Ok else Error)
            case Refuse(id) => rows == s.rows || rows == Finished(s.rows, id, 0, SkippedBudget)
            case Fail(id) => rows == Finished(s.rows, id, 0, Error)
            case _ => rows == s.rows
  {
    if e.Insert? || e.Note? {
    } else {
      var m := MoveOf(cfgs(s.rows[e.id].agent), s.rows, s.rows[e.id], s.phases[e.id], e).value;
      if e.Finish? {
        assert m.row.outcome.Some?;
        assert s.rows[e.id := m.row] == Finished(s.rows, e.id, m.row.cost, m.row.outcome.value);
      }
    }
  }

  /** The passes of the runner record after their turns and finish; the others settle once. */
  lemma WhoRecords(cfgs: Configs, s: State, e: Event)
    requires Next(cfgs, s, e).Some? && (e.Record? || e.Finish? || e.Settle?)
    ensures e.id < |s.rows|
    ensures e.Settle? <==>
            s.rows[e.id].pass !in {NightlyReview, LessonsUpkeep, QuietMoment, SkillReview, Heartbeat}
  {
  }

  // --------------------------------------------------------------- accounting

  /** A run whose re-check has found room (and may yet refuse for the nightly), or that has ended. */
  predicate Counted(p: Phase) {
    match p
    case Inserted => false
    case Refusing => false
    case Weighed(left) => left >= 0
    case Asking(left) => left >= 0
    case _ => true
  }

  predicate Active(p: Phase) {
    Counted(p) && p != Closed
  }

  function Weight(pool: Pool, r: Row, p: Phase): nat {
    if Counted(p) then Part(pool, r) else 0
  }

  /** The recorded spend of the pool's admitted runs. */
  function CountedSpend(rows: seq<Row>, phases: seq<Phase>, pool: Pool): nat
    requires |rows| == |phases|
  {
    if rows == [] then 0
    else
      var n := |rows| - 1;
      CountedSpend(rows[..n], phases[..n], pool) + Weight(pool, rows[n], phases[n])
  }

  lemma {:induction false} CountedAtMostSpent(rows: seq<Row>, phases: seq<Phase>, pool: Pool)
    requires |rows| == |phases|
    ensures CountedSpend(rows, phases, pool) <= Spent(rows, pool)
    ensures (forall i :: 0 <= i < |rows| && InPool(pool, rows[i]) ==> Counted(phases[i])) ==>
            CountedSpend(rows, phases, pool) == Spent(rows, pool)
  {
    if rows != [] {
      CountedAtMostSpent(rows[..|rows| - 1], phases[..|rows| - 1], pool);
    }
  }

  lemma {:induction false} CountedPut(rows: seq<Row>, phases: seq<Phase>, pool: Pool, id: nat, r: Row, p: Phase)
    requires |rows| == |phases| && id < |rows|
    ensures CountedSpend(rows[id := r], phases[id := p], pool) ==
            CountedSpend(rows, phases, pool) - Weight(pool, rows[id], phases[id]) + Weight(pool, r, p)
  {
    var n := |rows| - 1;
    if id < n {
      CountedPut(rows[..n], phases[..n], pool, id, r, p);
      assert rows[id := r][..n] == rows[..n][id := r] && phases[id := p][..n] == phases[..n][id := p];
    } else {
      assert rows[id := r][..n] == rows[..n] && phases[id := p][..n] == phases[..n];
    }
  }

  lemma CountedAppend(rows: seq<Row>, phases: seq<Phase>, pool: Pool, r: Row, p: Phase)
    requires |rows| == |phases|
    ensures CountedSpend(rows + [r], phases + [p], pool) == CountedSpend(rows, phases, pool) + Weight(pool, r, p)
  {
    assert (rows + [r])[..|rows|] == rows && (phases + [p])[..|rows|] == phases;
  }

  function ActiveIds(s: State, pool: Pool): set<nat>
    requires |s.rows| == |s.phases|
  {
    set i: nat | i < |s.rows| && InPool(pool, s.rows[i]) && Active(s.phases[i])
  }

  predicate ValidPool(cfg: Config, pool: Pool) {
    (pool.split <==> cfg.proactiveLimit.Some?) && (!pool.split ==> !pool.proactive)
  }

  // ----------------------------------------------------------- the spend bound

  predicate Late(p: Phase) {
    p.Checking? || p.Stopping? || p.Closed?
  }

  /**
   * `since` holds the runs that recorded since the pool was last seen within its limit. The admitted
   * spend is within the limit plus `most` for each of them; and they, with the runs still active,
   * were all active when it was last seen.
   */
  ghost predicate Within(cfgs: Configs, s: State, pool: Pool, most: nat, k: nat, since: set<nat>) {
    && |s.rows| == |s.phases|
    && CountedSpend(s.rows, s.phases, pool) <= LimitOf(cfgs(pool.agent), pool) + most * |since|
    && |since + ActiveIds(s, pool)| <= k
    && (forall i :: i in since ==> i < |s.rows| && InPool(pool, s.rows[i]) && Late(s.phases[i]))
    && (forall i :: 0 <= i < |s.rows| && s.phases[i] != Closed ==> s.rows[i].outcome.None?)
  }

  ghost predicate SameRun(r: Row, q: Row) {
    r.agent == q.agent && r.pass == q.pass && r.day == q.day
  }

  lemma SubsetSize(a: set<nat>, b: set<nat>)
    requires a <= b
    ensures |a| <= |b|
  {
    if a != b {
      assert b == a + (b - a);
    }
  }

  lemma ActivePut(s: State, pool: Pool, id: nat, m: Move)
    requires |s.rows| == |s.phases| && id < |s.rows| && SameRun(s.rows[id], m.row)
    ensures ActiveIds(Put(s, id, m), pool) <= ActiveIds(s, pool) + {id}
    ensures !(InPool(pool, m.row) && Active(m.phase)) ==> id !in ActiveIds(Put(s, id, m), pool)
    ensures InPool(pool, s.rows[id]) && Active(s.phases[id]) ==> id in ActiveIds(s, pool)
  {
  }

  /** A step that raises nothing in the pool. */
  lemma QuietStep(cfgs: Configs, s: State, pool: Pool, most: nat, k: nat, since: set<nat>, id: nat, m: Move)
    requires Within(cfgs, s, pool, most, k, since) && id < |s.rows| && SameRun(s.rows[id], m.row)
    requires Weight(pool, m.row, m.phase) <= Weight(pool, s.rows[id], s.phases[id])
    requires InPool(pool, m.row) && Active(m.phase) ==> Active(s.phases[id])
    requires id in since ==> Late(m.phase)
    requires m.phase != Closed ==> m.row.outcome.None?
    ensures Within(cfgs, Put(s, id, m), pool, most, k, since)
  {
    CountedPut(s.rows, s.phases, pool, id, m.row, m.phase);
    ActivePut(s, pool, id, m);
    SubsetSize(since + ActiveIds(Put(s, id, m), pool), since + ActiveIds(s, pool));
  }

  /** A read that sees the pool within its limit: everything recorded so far is inside it. */
  lemma SeenWithin(cfgs: Configs, s: State, pool: Pool, most: nat, k: nat, since: set<nat>, id: nat, p: Phase)
    requires Within(cfgs, s, pool, most, k, since) && id < |s.rows| && s.rows[id].outcome.None?
    requires Spent(s.rows, pool) <= LimitOf(cfgs(pool.agent), pool)
    requires |ActiveIds(Put(s, id, Move(s.rows[id], p)), pool)| <= k
    ensures Within(cfgs, Put(s, id, Move(s.rows[id], p)), pool, most, k, {})
  {
    var t := Put(s, id, Move(s.rows[id], p));
    assert t.rows == s.rows;
    CountedAtMostSpent(t.rows, t.phases, pool);
    assert {} + ActiveIds(t, pool) == ActiveIds(t, pool);
  }

  /** A recorded increase of an active run that had not recorded since the pool was last seen within. */
  lemma Increased(cfgs: Configs, s: State, pool: Pool, most: nat, k: nat, since: set<nat>, id: nat, m: Move)
    requires Within(cfgs, s, pool, most, k, since) && id < |s.rows| && SameRun(s.rows[id], m.row)
    requires InPool(pool, s.rows[id]) && Active(s.phases[id]) && !Late(s.phases[id]) && Late(m.phase)
    requires m.row.cost <= s.rows[id].cost + most
    requires m.phase != Closed ==> m.row.outcome.None?
    ensures Within(cfgs, Put(s, id, m), pool, most, k, since + {id})
  {
    CountedPut(s.rows, s.phases, pool, id, m.row, m.phase);
    OneMore(since, id, most);
    IncreasedActive(s, pool, since, id, m);
  }

  lemma IncreasedActive(s: State, pool: Pool, since: set<nat>, id: nat, m: Move)
    requires |s.rows| == |s.phases| && id < |s.rows| && SameRun(s.rows[id], m.row)
    requires InPool(pool, s.rows[id]) && Active(s.phases[id])
    ensures |since + {id} + ActiveIds(Put(s, id, m), pool)| <= |since + ActiveIds(s, pool)|
  {
    ActivePut(s, pool, id, m);
    SubsetSize(since + {id} + ActiveIds(Put(s, id, m), pool), since + ActiveIds(s, pool));
  }

  lemma OneMore(since: set<nat>, id: nat, most: nat)
    requires id !in since
    ensures most * |since + {id}| == most * |since| + most
  {
    assert |since + {id}| == |since| + 1;
  }

  lemma Appended(cfgs: Configs, s: State, pool: Pool, most: nat, k: nat, since: set<nat>, m: Move)
    requires Within(cfgs, s, pool, most, k, since)
    requires !Active(m.phase) && (Counted(m.phase) ==> m.row.cost == 0) && (m.phase != Closed ==> m.row.outcome.None?)
    ensures Within(cfgs, Append(s, m), pool, most, k, since)
  {
    CountedAppend(s.rows, s.phases, pool, m.row, m.phase);
    assert ActiveIds(Append(s, m), pool) == ActiveIds(s, pool);
  }

  // ------------------------------------------------------------- whole histories

  /** The step raises no row of the pool by more than `most`. */
  ghost predicate RaisesAtMost(s: State, e: Event, pool: Pool, most: nat) {
    (e.Record? || e.Settle?) && e.id < |s.rows| && InPool(pool, s.rows[e.id]) ==> e.cost <= s.rows[e.id].cost + most
  }

  /** At every point at most `k` of the pool's runs are active, and no recorded increase passes `most`. */
  ghost predicate Bounded(cfgs: Configs, es: seq<Event>, pool: Pool, most: nat, k: nat) {
    es != [] && Play(cfgs, es).Some? ==>
      && Bounded(cfgs, es[..|es| - 1], pool, most, k)
      && RaisesAtMost(Play(cfgs, es[..|es| - 1]).value, es[|es| - 1], pool, most)
      && |Play(cfgs, es).value.rows| == |Play(cfgs, es).value.phases|
      && |ActiveIds(Play(cfgs, es).value, pool)| <= k
  }

  ghost function SinceAfter(cfgs: Configs, s: State, e: Event, pool: Pool, since: set<nat>): set<nat> {
    match e
    case ReadSpent(id) =>
      if id < |s.rows| && InPool(pool, s.rows[id]) && Spent(s.rows, pool) <= LimitOf(cfgs(pool.agent), pool)
      then {} else since
    case CheckLimit(id) =>
      if id < |s.rows| && InPool(pool, s.rows[id]) && Spent(s.rows, pool) <= LimitOf(cfgs(pool.agent), pool)
      then {} else since
    case Record(id, _) => if id < |s.rows| && InPool(pool, s.rows[id]) then since + {id} else since
    case Settle(id, _, _) => if id < |s.rows| && InPool(pool, s.rows[id]) then since + {id} else since
    case _ => since
  }

  /** A row's run looks at its own pool, and a pool's limit is that of every run in it. */
  lemma OwnPool(cfgs: Configs, r: Row, pool: Pool)
    requires ValidPool(cfgs(pool.agent), pool) && InPool(pool, r)
    ensures PoolOf(cfgs(r.agent), r.agent, r.pass, r.day) == pool
  {
  }

  /** A read of a run in the pool sees it within the limit, or adds nothing; one outside adds nothing to the pool. */
  lemma ReadIsQuiet(cfg: Config, rows: seq<Row>, r: Row, p: Phase, e: Event, pool: Pool, m: Move)
    requires e.ReadSpent? || e.CheckLimit?
    requires MoveOf(cfg, rows, r, p, e) == Some(m) && (p != Closed ==> r.outcome.None?)
    requires InPool(pool, r) ==> PoolOf(cfg, r.agent, r.pass, r.day) == pool && Spent(rows, pool) > LimitOf(cfg, pool)
    ensures m.row == r && r.outcome.None?
    ensures Weight(pool, m.row, m.phase) <= Weight(pool, r, p)
    ensures InPool(pool, r) && Active(m.phase) ==> Active(p)
    ensures InPool(pool, r) && Late(p) ==> Late(m.phase)
  {
  }

  lemma ReadMovesNoRow(cfg: Config, rows: seq<Row>, r: Row, p: Phase, e: Event, m: Move)
    requires e.ReadSpent? || e.CheckLimit?
    requires MoveOf(cfg, rows, r, p, e) == Some(m)
    ensures m.row == r && p != Closed
  {
  }

  lemma ReadKeeps(cfgs: Configs, s: State, e: Event, pool: Pool, most: nat, k: nat, since: set<nat>, id: nat, m: Move)
    requires Within(cfgs, s, pool, most, k, since) && ValidPool(cfgs(pool.agent), pool)
    requires (e.ReadSpent? || e.CheckLimit?) && e.id == id && id < |s.rows|
    requires MoveOf(cfgs(s.rows[id].agent), s.rows, s.rows[id], s.phases[id], e) == Some(m)
    requires |ActiveIds(Put(s, id, m), pool)| <= k
    ensures Within(cfgs, Put(s, id, m), pool, most, k, SinceAfter(cfgs, s, e, pool, since))
  {
    var r, p := s.rows[id], s.phases[id];
    ReadMovesNoRow(cfgs(r.agent), s.rows, r, p, e, m);
    assert r.outcome.None?;
    if InPool(pool, r) && Spent(s.rows, pool) <= LimitOf(cfgs(pool.agent), pool) {
      assert SinceAfter(cfgs, s, e, pool, since) == {};
      SeenWithin(cfgs, s, pool, most, k, since, id, m.phase);
    } else {
      assert SinceAfter(cfgs, s, e, pool, since) == since;
      ReadBeyond(cfgs, s, e, pool, most, k, since, id, m);
    }
  }

  /** A read of a run outside the pool, or one that sees the pool beyond its limit. */
  lemma ReadBeyond(cfgs: Configs, s: State, e: Event, pool: Pool, most: nat, k: nat, since: set<nat>, id: nat, m: Move)
    requires Within(cfgs, s, pool, most, k, since) && ValidPool(cfgs(pool.agent), pool)
    requires (e.ReadSpent? || e.CheckLimit?) && e.id == id && id < |s.rows|
    requires MoveOf(cfgs(s.rows[id].agent), s.rows, s.rows[id], s.phases[id], e) == Some(m)
    requires InPool(pool, s.rows[id]) ==> Spent(s.rows, pool) > LimitOf(cfgs(pool.agent), pool)
    ensures Within(cfgs, Put(s, id, m), pool, most, k, since)
  {
    if InPool(pool, s.rows[id]) {
      OwnPool(cfgs, s.rows[id], pool);
    }
    ReadIsQuiet(cfgs(s.rows[id].agent), s.rows, s.rows[id], s.phases[id], e, pool, m);
    QuietStep(cfgs, s, pool, most, k, since, id, m);
  }

  lemma RaiseKeeps(cfgs: Configs, s: State, e: Event, pool: Pool, most: nat, k: nat, since: set<nat>, id: nat, m: Move)
    requires Within(cfgs, s, pool, most, k, since)
    requires (e.Record? || e.Settle?) && e.id == id && id < |s.rows|
    requires MoveOf(cfgs(s.rows[id].agent), s.rows, s.rows[id], s.phases[id], e) == Some(m)
    requires RaisesAtMost(s, e, pool, most)
    ensures Within(cfgs, Put(s, id, m), pool, most, k, SinceAfter(cfgs, s, e, pool, since))
  {
    var r, p := s.rows[id], s.phases[id];
    assert SinceAfter(cfgs, s, e, pool, since) == if InPool(pool, r) then since + {id} else since;
    assert InPool(pool, r) ==> e.cost <= r.cost + most;
    RaiseIs(cfgs(r.agent), s.rows, r, p, e, pool, m);
    if InPool(pool, r) {
      Increased(cfgs, s, pool, most, k, since, id, m);
    } else {
      QuietStep(cfgs, s, pool, most, k, since, id, m);
    }
  }

  /** A recording run was active, had not recorded since its last look, and writes at most the cost it brings. */
  lemma RaiseIs(cfg: Config, rows: seq<Row>, r: Row, p: Phase, e: Event, pool: Pool, m: Move)
    requires e.Record? || e.Settle?
    requires MoveOf(cfg, rows, r, p, e) == Some(m) && (p != Closed ==> r.outcome.None?)
    ensures SameRun(r, m.row) && m.row.cost == e.cost && (m.phase != Closed ==> m.row.outcome.None?)
    ensures Active(p) && !Late(p) && Late(m.phase)
    ensures !InPool(pool, r) ==> Weight(pool, m.row, m.phase) == 0 && !InPool(pool, m.row)
  {
  }

  /** Deciding, refusing, failing and finishing never raise a counted cost. */
  lemma EndKeeps(cfgs: Configs, s: State, e: Event, pool: Pool, most: nat, k: nat, since: set<nat>, id: nat, m: Move)
    requires Within(cfgs, s, pool, most, k, since)
    requires (e.ReadNightly? || e.ReadEstimate? || e.Refuse? || e.Fail? || e.Finish?) && e.id == id && id < |s.rows|
    requires MoveOf(cfgs(s.rows[id].agent), s.rows, s.rows[id], s.phases[id], e) == Some(m)
    ensures Within(cfgs, Put(s, id, m), pool, most, k, since)
  {
    EndIsQuiet(cfgs(s.rows[id].agent), s.rows, s.rows[id], s.phases[id], e, pool, m);
    QuietStep(cfgs, s, pool, most, k, since, id, m);
  }

  lemma EndIsQuiet(cfg: Config, rows: seq<Row>, r: Row, p: Phase, e: Event, pool: Pool, m: Move)
    requires e.ReadNightly? || e.ReadEstimate? || e.Refuse? || e.Fail? || e.Finish?
    requires MoveOf(cfg, rows, r, p, e) == Some(m) && (p != Closed ==> r.outcome.None?)
    ensures SameRun(r, m.row) && Weight(pool, m.row, m.phase) <= Weight(pool, r, p)
    ensures Active(m.phase) ==> Active(p)
    ensures Late(p) ==> Late(m.phase)
    ensures m.phase != Closed ==> m.row.outcome.None?
  {
  }

  lemma StepKeeps(cfgs: Configs, s: State, e: Event, pool: Pool, most: nat, k: nat, since: set<nat>)
    requires Within(cfgs, s, pool, most, k, since) && ValidPool(cfgs(pool.agent), pool)
    requires Next(cfgs, s, e).Some? && RaisesAtMost(s, e, pool, most)
    requires var t := Next(cfgs, s, e).value; |t.rows| == |t.phases| && |ActiveIds(t, pool)| <= k
    ensures Within(cfgs, Next(cfgs, s, e).value, pool, most, k, SinceAfter(cfgs, s, e, pool, since))
  {
    if e.Insert? {
      Appended(cfgs, s, pool, most, k, since,
        Move(Row(e.agent, e.pass, e.day, e.startedAt, e.estimate, None), Inserted));
    } else if e.Note? {
      Appended(cfgs, s, pool, most, k, since,
        Move(Row(e.agent, e.pass, e.day, e.startedAt, 0, Some(e.outcome)), Closed));
    } else {
      var m := MoveOf(cfgs(s.rows[e.id].agent), s.rows, s.rows[e.id], s.phases[e.id], e).value;
      if e.ReadSpent? || e.CheckLimit? {
        ReadKeeps(cfgs, s, e, pool, most, k, since, e.id, m);
      } else if e.Record? || e.Settle? {
        RaiseKeeps(cfgs, s, e, pool, most, k, since, e.id, m);
      } else {
        EndKeeps(cfgs, s, e, pool, most, k, since, e.id, m);
      }
    }
  }

  ghost function Since(cfgs: Configs, es: seq<Event>, pool: Pool): set<nat> {
    if es == [] || Play(cfgs, es).None? then {}
    else SinceAfter(cfgs, Play(cfgs, es[..|es| - 1]).value, es[|es| - 1], pool, Since(cfgs, es[..|es| - 1], pool))
  }

  lemma {:induction false} PlayKeeps(cfgs: Configs, es: seq<Event>, pool: Pool, most: nat, k: nat)
    requires Play(cfgs, es).Some? && ValidPool(cfgs(pool.agent), pool) && Bounded(cfgs, es, pool, most, k)
    ensures Within(cfgs, Play(cfgs, es).value, pool, most, k, Since(cfgs, es, pool))
  {
    if es == [] {
      assert ActiveIds(State([], []), pool) == {};
      assert {} + ActiveIds(State([], []), pool) == {};
    } else {
      var before := es[..|es| - 1];
      PlayKeeps(cfgs, before, pool, most, k);
      StepKeeps(cfgs, Play(cfgs, before).value, es[|es| - 1], pool, most, k, Since(cfgs, before, pool));
    }
  }

  lemma AtMost(since: set<nat>, active: set<nat>, most: nat, k: nat)
    requires |since + active| <= k
    ensures most * |since| <= most * k
  {
    SubsetSize(since, since + active);
    Monotone(most, |since|, k);
  }

  lemma Monotone(most: nat, a: nat, b: nat)
    requires a <= b
    ensures most * a <= most * b
  {
  }

  /**
   * The overshoot bound. Over every interleaving of inserts, re-checks, recorded turns, limit checks
   * and settlements, with at most `k` runs of the pool active at a time and no recorded increase
   * above `most`, the admitted runs' recorded spend never passes the limit by more than k * most;
   * and once every start of the day is decided, neither does the whole of the day's spend.
   */
  lemma Overshoot(cfgs: Configs, es: seq<Event>, pool: Pool, most: nat, k: nat)
    requires Play(cfgs, es).Some? && ValidPool(cfgs(pool.agent), pool) && Bounded(cfgs, es, pool, most, k)
    ensures var s, limit := Play(cfgs, es).value, LimitOf(cfgs(pool.agent), pool);
            && |s.rows| == |s.phases|
            && CountedSpend(s.rows, s.phases, pool) <= limit + most * k
            && ((forall i :: 0 <= i < |s.rows| && InPool(pool, s.rows[i]) ==> Counted(s.phases[i])) ==>
                Spent(s.rows, pool) <= limit + most * k)
  {
    PlayKeeps(cfgs, es, pool, most, k);
    var s := Play(cfgs, es).value;
    AtMost(Since(cfgs, es, pool), ActiveIds(s, pool), most, k);
    CountedAtMostSpent(s.rows, s.phases, pool);
  }

  // ---------------------------------------------------- admission without spend

  /** Nothing recorded in the pool rises. */
  ghost predicate NoneRises(cfgs: Configs, es: seq<Event>, pool: Pool) {
    es != [] && Play(cfgs, es).Some? ==>
      && NoneRises(cfgs, es[..|es| - 1], pool)
      && RaisesAtMost(Play(cfgs, es[..|es| - 1]).value, es[|es| - 1], pool, 0)
  }

  /** `reserve` lies within every nightly estimate the pool's agent would have read. */
  ghost predicate NightlyAtLeast(cfgs: Configs, es: seq<Event>, agent: string, reserve: nat) {
    es != [] && Play(cfgs, es).Some? ==>
      && NightlyAtLeast(cfgs, es[..|es| - 1], agent, reserve)
      && reserve <= EstimateFor(Play(cfgs, es[..|es| - 1]).value.rows, agent, NightlyReview)
  }

  /** What a run that has read the pool found left of it. */
  function LeftOf(p: Phase): Option<int> {
    match p
    case Weighed(left) => Some(left)
    case Asking(left) => Some(left)
    case Running(left, _, _) => Some(left)
    case Checking(left, _) => Some(left)
    case Stopping(left, _) => Some(left)
    case _ => None
  }

  predicate Admitted(p: Phase) {
    p.Running? || p.Checking? || p.Stopping?
  }

  /** Run `i` stands: the rows up to its own, with what it found left, fit the limit; admitted, it left the reserve. */
  ghost predicate Stands(cfg: Config, s: State, pool: Pool, reserve: nat, i: nat)
    requires i < |s.rows| == |s.phases|
  {
    InPool(pool, s.rows[i]) && LeftOf(s.phases[i]).Some? ==>
      var left := LeftOf(s.phases[i]).value;
      && Spent(s.rows[..i + 1], pool) + left <= LimitOf(cfg, pool)
      && (Admitted(s.phases[i]) ==>
            left >= 0 && (BehindNightly(cfg, s.rows[i].pass) && !RanOn(s.rows, pool.agent, NightlyReview, pool.day) ==>
              left >= reserve))
  }

  ghost predicate AllStand(cfg: Config, s: State, pool: Pool, reserve: nat) {
    && |s.rows| == |s.phases|
    && (forall i :: 0 <= i < |s.rows| ==> Stands(cfg, s, pool, reserve, i))
    && (forall i :: 0 <= i < |s.rows| && s.phases[i] != Closed ==> s.rows[i].outcome.None?)
  }

  lemma SpentFalls(rows: seq<Row>, pool: Pool, id: nat, r: Row)
    requires id < |rows| && SameRun(rows[id], r)
    ensures (InPool(pool, r) && r.cost > rows[id].cost) || Spent(rows[id := r], pool) <= Spent(rows, pool)
  {
    SpentPut(rows, pool, id, r);
  }

  lemma {:induction false} SpentPrefix(rows: seq<Row>, pool: Pool, i: nat)
    requires i <= |rows|
    ensures Spent(rows[..i], pool) <= Spent(rows, pool)
  {
    if i == |rows| {
      assert rows[..i] == rows;
    } else {
      var n := |rows| - 1;
      SpentPrefix(rows[..n], pool, i);
      assert rows[..n][..i] == rows[..i];
    }
  }

  lemma RanStays(rows: seq<Row>, id: nat, r: Row, agent: string, day: string)
    requires id < |rows| && SameRun(rows[id], r)
    requires rows[id].outcome.Some? ==> r.outcome == rows[id].outcome
    requires RanOn(rows, agent, NightlyReview, day)
    ensures RanOn(rows[id := r], agent, NightlyReview, day)
  {
    var i :| 0 <= i < |rows| && Ran(rows[i], agent, NightlyReview, day);
    assert Ran(rows[id := r][i], agent, NightlyReview, day);
  }

  /** A step of one run leaves every other run standing. */
  lemma OthersStand(cfg: Config, s: State, pool: Pool, reserve: nat, id: nat, m: Move, i: nat)
    requires |s.rows| == |s.phases| && id < |s.rows| && i < |s.rows| && i != id && SameRun(s.rows[id], m.row)
    requires Stands(cfg, s, pool, reserve, i)
    requires s.rows[id].outcome.Some? ==> m.row.outcome == s.rows[id].outcome
    requires InPool(pool, m.row) ==> m.row.cost <= s.rows[id].cost
    ensures Stands(cfg, Put(s, id, m), pool, reserve, i)
  {
    var t := Put(s, id, m);
    if id < i {
      SpentFalls(s.rows[..i + 1], pool, id, m.row);
      assert t.rows[..i + 1] == s.rows[..i + 1][id := m.row];
    } else {
      assert t.rows[..i + 1] == s.rows[..i + 1];
    }
    if RanOn(s.rows, pool.agent, NightlyReview, pool.day) {
      RanStays(s.rows, id, m.row, pool.agent, pool.day);
    }
  }

  /** The run that steps stands too. */
  lemma MoverStands(cfg: Config, s: State, e: Event, pool: Pool, reserve: nat, id: nat, m: Move)
    requires AllStand(cfg, s, pool, reserve) && id < |s.rows| && InPool(pool, s.rows[id])
    requires PoolOf(cfg, s.rows[id].agent, s.rows[id].pass, s.rows[id].day) == pool
    requires MoveOf(cfg, s.rows, s.rows[id], s.phases[id], e) == Some(m)
    requires m.row.cost <= s.rows[id].cost && reserve <= EstimateFor(s.rows, pool.agent, NightlyReview)
    ensures Stands(cfg, Put(s, id, m), pool, reserve, id)
  {
    var r, p, t := s.rows[id], s.phases[id], Put(s, id, m);
    assert Stands(cfg, s, pool, reserve, id);
    MoveStays(cfg, s.rows, r, p, e, m);
    SpentFalls(s.rows[..id + 1], pool, id, m.row);
    assert t.rows[..id + 1] == s.rows[..id + 1][id := m.row];
    SpentPrefix(s.rows, pool, id + 1);
    if RanOn(s.rows, pool.agent, NightlyReview, pool.day) {
      RanStays(s.rows, id, m.row, pool.agent, pool.day);
    }
  }

  /** What a step keeps of its run, and what it newly found or decided. */
  lemma MoveStays(cfg: Config, rows: seq<Row>, r: Row, p: Phase, e: Event, m: Move)
    requires MoveOf(cfg, rows, r, p, e) == Some(m) && (p != Closed ==> r.outcome.None?)
    ensures SameRun(r, m.row) && r.outcome.None? && (m.phase != Closed ==> m.row.outcome.None?)
    ensures LeftOf(m.phase).Some? ==>
              LeftOf(m.phase) == LeftOf(p) || LeftOf(m.phase).value == Remaining(cfg, rows, r.agent, r.pass, r.day)
    ensures Admitted(m.phase) ==>
              LeftOf(m.phase) == LeftOf(p) &&
              (Admitted(p) || LeftOf(p).value >= (if p.Asking? then EstimateFor(rows, r.agent, NightlyReview) else 0))
    ensures Admitted(m.phase) && !Admitted(p) && !p.Asking? ==>
            !BehindNightly(cfg, r.pass) || RanOn(rows, r.agent, NightlyReview, r.day)
  {
  }

  lemma AppendStands(cfg: Config, s: State, pool: Pool, reserve: nat, m: Move)
    requires AllStand(cfg, s, pool, reserve) && LeftOf(m.phase).None? && (m.phase != Closed ==> m.row.outcome.None?)
    ensures AllStand(cfg, Append(s, m), pool, reserve)
  {
    var t := Append(s, m);
    forall i | 0 <= i < |t.rows|
      ensures Stands(cfg, t, pool, reserve, i)
    {
      if i < |s.rows| {
        assert Stands(cfg, s, pool, reserve, i);
        assert t.rows[..i + 1] == s.rows[..i + 1];
        if RanOn(s.rows, pool.agent, NightlyReview, pool.day) {
          var j :| 0 <= j < |s.rows| && Ran(s.rows[j], pool.agent, NightlyReview, pool.day);
          assert Ran(t.rows[j], pool.agent, NightlyReview, pool.day);
        }
      }
    }
  }

  lemma MoveStands(cfgs: Configs, s: State, e: Event, pool: Pool, reserve: nat, id: nat, m: Move)
    requires AllStand(cfgs(pool.agent), s, pool, reserve) && ValidPool(cfgs(pool.agent), pool)
    requires !e.Insert? && !e.Note? && e.id == id && id < |s.rows|
    requires MoveOf(cfgs(s.rows[id].agent), s.rows, s.rows[id], s.phases[id], e) == Some(m)
    requires RaisesAtMost(s, e, pool, 0) && reserve <= EstimateFor(s.rows, pool.agent, NightlyReview)
    ensures AllStand(cfgs(pool.agent), Put(s, id, m), pool, reserve)
  {
    var r, t := s.rows[id], Put(s, id, m);
    MoveStays(cfgs(r.agent), s.rows, r, s.phases[id], e, m);
    if InPool(pool, r) {
      OwnPool(cfgs, r, pool);
      assert m.row.cost <= r.cost;
      MoverStands(cfgs(pool.agent), s, e, pool, reserve, id, m);
    }
    forall i | 0 <= i < |t.rows|
      ensures Stands(cfgs(pool.agent), t, pool, reserve, i)
    {
      if i != id {
        OthersStand(cfgs(pool.agent), s, pool, reserve, id, m, i);
      }
    }
  }

  lemma {:induction false} PlayStands(cfgs: Configs, es: seq<Event>, pool: Pool, reserve: nat)
    requires Play(cfgs, es).Some? && ValidPool(cfgs(pool.agent), pool)
    requires NoneRises(cfgs, es, pool) && NightlyAtLeast(cfgs, es, pool.agent, reserve)
    ensures AllStand(cfgs(pool.agent), Play(cfgs, es).value, pool, reserve)
  {
    if es != [] {
      var before, e := es[..|es| - 1], es[|es| - 1];
      PlayStands(cfgs, before, pool, reserve);
      var s := Play(cfgs, before).value;
      if e.Insert? {
        AppendStands(cfgs(pool.agent), s, pool, reserve,
          Move(Row(e.agent, e.pass, e.day, e.startedAt, e.estimate, None), Inserted));
      } else if e.Note? {
        AppendStands(cfgs(pool.agent), s, pool, reserve,
          Move(Row(e.agent, e.pass, e.day, e.startedAt, 0, Some(e.outcome)), Closed));
      } else {
        var m := MoveOf(cfgs(s.rows[e.id].agent), s.rows, s.rows[e.id], s.phases[e.id], e).value;
        MoveStands(cfgs, s, e, pool, reserve, e.id, m);
      }
    }
  }

  /**
   * Concurrent admission is safe. Over every interleaving of any number of starters, while nothing
   * recorded in the pool rises, an admitted run fits the limit together with every run inserted before
   * it, and so do all the admitted runs together; and a run behind the nightly leaves the nightly's
   * estimate free as well, for as long as the nightly has not run that day.
   */
  lemma AdmissionIsSafe(cfgs: Configs, es: seq<Event>, pool: Pool, reserve: nat, i: nat)
    requires Play(cfgs, es).Some? && ValidPool(cfgs(pool.agent), pool)
    requires NoneRises(cfgs, es, pool) && NightlyAtLeast(cfgs, es, pool.agent, reserve)
    ensures var s, limit := Play(cfgs, es).value, LimitOf(cfgs(pool.agent), pool);
            && |s.rows| == |s.phases|
            && CountedSpend(s.rows, s.phases, pool) <= limit
            && (i < |s.rows| && InPool(pool, s.rows[i]) && Admitted(s.phases[i]) ==>
                  && Spent(s.rows[..i + 1], pool) <= limit
                  && (BehindNightly(cfgs(pool.agent), s.rows[i].pass)
                      && !RanOn(s.rows, pool.agent, NightlyReview, pool.day) ==>
                        Spent(s.rows[..i + 1], pool) + reserve <= limit))
  {
    PlayStands(cfgs, es, pool, reserve);
    var s := Play(cfgs, es).value;
    CountedFits(cfgs, es, pool);
    if i < |s.rows| {
      assert Stands(cfgs(pool.agent), s, pool, reserve, i);
    }
  }

  /** With no increase the bound needs no count of the active runs: take as many as were ever inserted. */
  lemma {:induction false} NoneRisesIsBounded(cfgs: Configs, es: seq<Event>, pool: Pool, k: nat)
    requires Play(cfgs, es).Some? && NoneRises(cfgs, es, pool) && |es| <= k
    ensures Bounded(cfgs, es, pool, 0, k) && |Play(cfgs, es).value.rows| == |Play(cfgs, es).value.phases| <= |es|
  {
    if es != [] {
      var before := es[..|es| - 1];
      NoneRisesIsBounded(cfgs, before, pool, k);
      StepAddsOne(cfgs, Play(cfgs, before).value, es[|es| - 1]);
      var t := Play(cfgs, es).value;
      IdsBelow(ActiveIds(t, pool), |t.rows|);
    }
  }

  lemma StepAddsOne(cfgs: Configs, s: State, e: Event)
    requires |s.rows| == |s.phases| && Next(cfgs, s, e).Some?
    ensures var t := Next(cfgs, s, e).value; |t.rows| == |t.phases| <= |s.rows| + 1
  {
  }

  lemma {:induction false} IdsBelow(ids: set<nat>, n: nat)
    requires forall i :: i in ids ==> i < n
    ensures |ids| <= n
  {
    if n == 0 {
      assert ids == {};
    } else {
      IdsBelow(ids - {n - 1}, n - 1);
      SubsetSize(ids, (ids - {n - 1}) + {n - 1});
    }
  }

  lemma CountedFits(cfgs: Configs, es: seq<Event>, pool: Pool)
    requires Play(cfgs, es).Some? && ValidPool(cfgs(pool.agent), pool) && NoneRises(cfgs, es, pool)
    ensures var s := Play(cfgs, es).value;
            |s.rows| == |s.phases| && CountedSpend(s.rows, s.phases, pool) <= LimitOf(cfgs(pool.agent), pool)
  {
    NoneRisesIsBounded(cfgs, es, pool, |es|);
    Overshoot(cfgs, es, pool, 0, |es|);
  }

  // ------------------------------------------------------- the bound is reached

  const POOL := Pool("a", "d", false, false)

  /** A run of one agent's day at a given cost. */
  function Upkeep(cost: nat): Row {
    Row("a", LessonsUpkeep, "d", 0, cost, None)
  }

  function At(cost: nat, phase: Phase): Move {
    Move(Upkeep(cost), phase)
  }

  /** `n` runs, the first `j` of them at `after` and the others at `before`. */
  function Mixed(n: nat, j: nat, before: Move, after: Move): State {
    State(seq(n, i => if i < j then after.row else before.row),
          seq(n, i => if i < j then after.phase else before.phase))
  }

  /** The history so far leaves `s`, and met the terms of the bound for `k` runs all along. */
  ghost predicate Leaves(cfgs: Configs, es: seq<Event>, s: State, most: nat, k: nat) {
    Play(cfgs, es) == Some(s) && Bounded(cfgs, es, POOL, most, k)
  }

  lemma OneMoreStep(cfgs: Configs, es: seq<Event>, s: State, e: Event, t: State, most: nat, k: nat)
    requires Leaves(cfgs, es, s, most, k) && Next(cfgs, s, e) == Some(t) && RaisesAtMost(s, e, POOL, most)
    requires |t.rows| == |t.phases| <= k
    ensures Leaves(cfgs, es + [e], t, most, k)
  {
    assert (es + [e])[..|es|] == es;
    IdsBelow(ActiveIds(t, POOL), |t.rows|);
  }

  /** Run `j` can take step `e` from `before` to `after`, whatever the others have done of it. */
  ghost predicate CanMove(cfgs: Configs, k: nat, before: Move, after: Move, most: nat, j: nat, e: Event)
    requires j < k
  {
    var s := Mixed(k, j, before, after);
    && !e.Insert? && !e.Note? && e.id == j && RaisesAtMost(s, e, POOL, most)
    && MoveOf(cfgs(before.row.agent), s.rows, before.row, before.phase, e) == Some(after)
  }

  /** All runs take the same step, one after the other. */
  lemma {:induction false} Sweep(
      cfgs: Configs, es: seq<Event>, k: nat, before: Move, after: Move, most: nat, j: nat, step: nat -> Event)
    returns (more: seq<Event>)
    requires j <= k && Leaves(cfgs, es, Mixed(k, j, before, after), most, k)
    requires forall i: nat :: i < k ==> CanMove(cfgs, k, before, after, most, i, step(i))
    ensures Leaves(cfgs, more, Mixed(k, k, before, after), most, k)
    decreases k - j
  {
    if j == k {
      more := es;
    } else {
      var s := Mixed(k, j, before, after);
      assert CanMove(cfgs, k, before, after, most, j, step(j));
      assert Put(s, j, after) == Mixed(k, j + 1, before, after);
      OneMoreStep(cfgs, es, s, step(j), Mixed(k, j + 1, before, after), most, k);
      more := Sweep(cfgs, es + [step(j)], k, before, after, most, j + 1, step);
    }
  }

  /** Where one sweep ends the next begins. */
  lemma Handover(n: nat, before: Move, after: Move, next: Move)
    ensures Mixed(n, n, before, after) == Mixed(n, 0, after, next)
  {
  }

  lemma {:induction false} SpentUniform(rows: seq<Row>, cost: nat)
    requires forall i :: 0 <= i < |rows| ==> rows[i] == Upkeep(cost)
    ensures Spent(rows, POOL) == |rows| * cost
  {
    if rows != [] {
      SpentUniform(rows[..|rows| - 1], cost);
      assert |rows| * cost == (|rows| - 1) * cost + cost;
    }
  }

  lemma {:induction false} AllInserted(cfgs: Configs, n: nat, k: nat, most: nat) returns (es: seq<Event>)
    requires n <= k
    ensures var start := At(30_000, Inserted); Leaves(cfgs, es, Mixed(n, n, start, start), most, k)
  {
    var start := At(30_000, Inserted);
    if n == 0 {
      es := [];
      assert Mixed(0, 0, start, start) == State([], []);
    } else {
      es := AllInserted(cfgs, n - 1, k, most);
      var insert := Insert("a", LessonsUpkeep, "d", 0, 30_000);
      assert Append(Mixed(n - 1, n - 1, start, start), start) == Mixed(n, n, start, start);
      OneMoreStep(cfgs, es, Mixed(n - 1, n - 1, start, start), insert, Mixed(n, n, start, start), most, k);
      es := es + [insert];
    }
  }

  /** With room for just these runs every re-check finds nothing left, and admits. */
  lemma ReadsLeaveNothing(cfgs: Configs, k: nat, most: nat, j: nat)
    requires cfgs("a") == Config(30_000 * k, None) && j < k
    ensures CanMove(cfgs, k, At(30_000, Inserted), At(30_000, Weighed(0)), most, j, ReadSpent(j))
  {
    SpentUniform(Mixed(k, j, At(30_000, Inserted), At(30_000, Weighed(0))).rows, 30_000);
  }

  lemma DecisionsAdmit(cfgs: Configs, k: nat, most: nat, j: nat)
    requires j < k
    ensures CanMove(cfgs, k, At(30_000, Weighed(0)), At(30_000, Running(0, 0, false)), most, j,
              ReadNightly(j))
  {
  }

  lemma RecordsRaise(cfgs: Configs, k: nat, most: nat, j: nat)
    requires j < k
    ensures CanMove(cfgs, k, At(30_000, Running(0, 0, false)), At(30_000 + most, Checking(0, 0)),
              most, j, Record(j, 30_000 + most))
  {
  }

  lemma AllAdmitted(cfgs: Configs, k: nat, most: nat) returns (es: seq<Event>)
    requires cfgs("a") == Config(30_000 * k, None)
    ensures Leaves(cfgs, es, Mixed(k, k, At(30_000, Weighed(0)), At(30_000, Running(0, 0, false))),
              most, k)
  {
    var i, w, r := At(30_000, Inserted), At(30_000, Weighed(0)), At(30_000, Running(0, 0, false));
    es := AllInserted(cfgs, k, k, most);
    Handover(k, i, i, w);
    forall j: nat | j < k
      ensures CanMove(cfgs, k, i, w, most, j, ReadSpent(j))
    {
      ReadsLeaveNothing(cfgs, k, most, j);
    }
    es := Sweep(cfgs, es, k, i, w, most, 0, (j: nat) => ReadSpent(j));
    Handover(k, i, w, r);
    forall j: nat | j < k
      ensures CanMove(cfgs, k, w, r, most, j, ReadNightly(j))
    {
      DecisionsAdmit(cfgs, k, most, j);
    }
    es := Sweep(cfgs, es, k, w, r, most, 0, (j: nat) => ReadNightly(j));
  }

  lemma AllRecorded(cfgs: Configs, k: nat, most: nat, cost: nat) returns (es: seq<Event>)
    requires cfgs("a") == Config(30_000 * k, None) && cost == 30_000 + most
    ensures Leaves(cfgs, es, Mixed(k, k, At(30_000, Running(0, 0, false)), At(cost, Checking(0, 0))),
              most, k)
  {
    var w, r := At(30_000, Weighed(0)), At(30_000, Running(0, 0, false));
    var c := At(cost, Checking(0, 0));
    es := AllAdmitted(cfgs, k, most);
    Handover(k, w, r, c);
    forall j: nat | j < k
      ensures CanMove(cfgs, k, r, c, most, j, Record(j, cost))
    {
      RecordsRaise(cfgs, k, most, j);
    }
    es := Sweep(cfgs, es, k, r, c, most, 0, (j: nat) => Record(j, cost));
  }

  lemma RecordedSpend(k: nat, most: nat, cost: nat, before: Move)
    requires cost == 30_000 + most
    ensures var s := Mixed(k, k, before, At(cost, Checking(0, 0)));
            |s.rows| == |s.phases| == k && CountedSpend(s.rows, s.phases, POOL) == 30_000 * k + most * k
  {
    var s := Mixed(k, k, before, At(cost, Checking(0, 0)));
    SpentUniform(s.rows, cost);
    CountedAtMostSpent(s.rows, s.phases, POOL);
    assert k * (30_000 + most) == 30_000 * k + most * k;
  }

  /**
   * The bound is tight: for every number of runs and every increase there is a history within the
   * terms of `Overshoot` whose spend passes the limit by exactly that many increases. All record
   * before any checks.
   */
  lemma OvershootIsReached(cfgs: Configs, k: nat, most: nat) returns (es: seq<Event>)
    requires cfgs("a") == Config(30_000 * k, None)
    ensures Play(cfgs, es).Some? && Bounded(cfgs, es, POOL, most, k)
    ensures var s := Play(cfgs, es).value;
            |s.rows| == |s.phases| && CountedSpend(s.rows, s.phases, POOL) == LimitOf(cfgs("a"), POOL) + most * k
  {
    es := AllRecorded(cfgs, k, most, 30_000 + most);
    RecordedSpend(k, most, 30_000 + most, At(30_000, Running(0, 0, false)));
  }
}
