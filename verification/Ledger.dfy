/**
 * The background run ledger (src/db/background-runs.ts) and the start rules read
 * from it (src/background/budget.ts). Costs are whole micro-dollars.
 */
module Ledger {
  import opened Common

  datatype Pass =
    | NightlyReview | LessonsUpkeep | SkillCheck | SkillReview | QuietMoment | Digest
    | Commitment | Heartbeat | HeartbeatTurn | HeartbeatWake

  datatype Outcome = Ok | SkippedBudget | StoppedBudget | Error

  /** One run; its id is its position in the ledger. `outcome` is `None` while it is open. */
  datatype Row = Row(agent: string, pass: Pass, day: string, startedAt: int, cost: nat, outcome: Option<Outcome>)

  // ------------------------------------------------------------------- writes

  predicate Open(rows: seq<Row>, id: nat) {
    id < |rows| && rows[id].outcome.None?
  }

  /** `progress`: an open row's cost so far; a finished row is left alone. */
  function Progressed(rows: seq<Row>, id: nat, cost: nat): seq<Row> {
    if Open(rows, id) then rows[id := rows[id].(cost := cost)] else rows
  }

  /** `finish`: unconditional, for a row that exists. */
  function Finished(rows: seq<Row>, id: nat, cost: nat, outcome: Outcome): seq<Row> {
    if id < |rows| then rows[id := rows[id].(cost := cost, outcome := Some(outcome))] else rows
  }

  /** `finishOpen`'s condition: still open, and this agent's and pass's. */
  predicate OwnedOpen(rows: seq<Row>, id: nat, agent: string, pass: Pass) {
    Open(rows, id) && rows[id].agent == agent && rows[id].pass == pass
  }

  // ------------------------------------------------------------------ queries

  /** The rows whose cost counts against one limit: an agent's day, or one side of it when the pools are split. */
  datatype Pool = Pool(agent: string, day: string, split: bool, proactive: bool)

  const PROACTIVE := {Heartbeat, HeartbeatTurn, HeartbeatWake, Commitment}

  predicate Proactive(p: Pass) {
    p == Heartbeat || p == HeartbeatTurn || p == HeartbeatWake || p == Commitment
  }

  predicate InPool(pool: Pool, r: Row) {
    r.agent == pool.agent && r.day == pool.day && (pool.split ==> Proactive(r.pass) == pool.proactive)
  }

  /** `spentOn`, for the rows of a pool. */
  function Spent(rows: seq<Row>, pool: Pool): nat {
    if rows == [] then 0
    else
      var r := rows[|rows| - 1];
      Spent(rows[..|rows| - 1], pool) + if InPool(pool, r) then r.cost else 0
  }

  // -------------------------------------------------------------------- table

  /** What a row counts in a pool. */
  function Part(pool: Pool, r: Row): nat {
    if InPool(pool, r) then r.cost else 0
  }

  lemma {:induction false} SpentPut(rows: seq<Row>, pool: Pool, id: nat, r: Row)
    requires id < |rows|
    ensures Spent(rows[id := r], pool) == Spent(rows, pool) - Part(pool, rows[id]) + Part(pool, r)
  {
    var n := |rows| - 1;
    if id < n {
      SpentPut(rows[..n], pool, id, r);
      assert rows[id := r][..n] == rows[..n][id := r];
    } else {
      assert rows[id := r][..n] == rows[..n];
    }
  }

  /**
   * Row `id` now counts `cost` in the pools it is in, in place of what it counted, and nothing else of any
   * pool changed.
   */
  ghost predicate Recounted(before: seq<Row>, after: seq<Row>, id: nat, cost: nat)
    requires id < |before|
  {
    forall pool: Pool ::
      Spent(after, pool) == Spent(before, pool) - Part(pool, before[id]) + if InPool(pool, before[id]) then cost else 0
  }

  lemma PutRecounts(rows: seq<Row>, id: nat, r: Row)
    requires id < |rows| && r.agent == rows[id].agent && r.pass == rows[id].pass && r.day == rows[id].day
    ensures Recounted(rows, rows[id := r], id, r.cost)
  {
    forall pool: Pool
      ensures Spent(rows[id := r], pool) ==
              Spent(rows, pool) - Part(pool, rows[id]) + if InPool(pool, rows[id]) then r.cost else 0
    {
      SpentPut(rows, pool, id, r);
    }
  }

  /** The table, changed in place. */
  class Table {
    var rows: seq<Row>

    constructor ()
      ensures rows == []
    {
      rows := [];
    }

    method Start(agent: string, pass: Pass, day: string, startedAt: int, cost: nat) returns (id: nat)
      modifies this
      ensures rows == old(rows) + [Row(agent, pass, day, startedAt, cost, None)]
      ensures id == |old(rows)| && Open(rows, id)
      ensures forall pool: Pool ::
                Spent(rows, pool) == Spent(old(rows), pool) +
                if && agent == pool.agent && day == pool.day
                   && (pool.split ==> (pool.proactive <==> pass in PROACTIVE))
                then cost else 0
    {
      id := |rows|;
      rows := rows + [Row(agent, pass, day, startedAt, cost, None)];
      assert rows[..id] == old(rows);
    }

    /**
     * An open run counts its cost so far in place of its last one; a finished one still counts what it
     * finished with.
     */
    method Progress(id: nat, cost: nat)
      modifies this
      ensures rows == Progressed(old(rows), id, cost)
      ensures Open(old(rows), id) ==> Open(rows, id) && Recounted(old(rows), rows, id, cost)
    {
      if Open(rows, id) {
        PutRecounts(rows, id, rows[id].(cost := cost));
        rows := rows[id := rows[id].(cost := cost)];
      }
    }

    /** A run that ended counts its last cost for good: no later progress moves it, and no `finishOpen`. */
    method Finish(id: nat, cost: nat, outcome: Outcome)
      modifies this
      ensures rows == Finished(old(rows), id, cost, outcome)
      ensures id < |old(rows)| ==> Recounted(old(rows), rows, id, cost) && !Open(rows, id)
      ensures forall c: nat :: Progressed(rows, id, c) == rows
      ensures forall agent: string, pass: Pass :: !OwnedOpen(rows, id, agent, pass)
    {
      if id < |rows| {
        PutRecounts(rows, id, rows[id].(cost := cost, outcome := Some(outcome)));
        rows := rows[id := rows[id].(cost := cost, outcome := Some(outcome))];
      }
    }

    /** Only an open run of this agent and pass is finished, and so only once. */
    method FinishOpen(id: nat, agent: string, pass: Pass, cost: nat, outcome: Outcome) returns (done: bool)
      modifies this
      ensures done <==> && id < |old(rows)| && old(rows)[id].outcome == None
                        && old(rows)[id].agent == agent && old(rows)[id].pass == pass
      ensures !OwnedOpen(rows, id, agent, pass)
      ensures rows == if done then Finished(old(rows), id, cost, outcome) else old(rows)
      ensures done ==> Recounted(old(rows), rows, id, cost)
    {
      done := OwnedOpen(rows, id, agent, pass);
      if done {
        Finish(id, cost, outcome);
      }
    }
  }

  // ---------------------------------------------------------- what was run before

  predicate Ran(r: Row, agent: string, pass: Pass, day: string) {
    r.agent == agent && r.pass == pass && r.day == day && r.outcome.Some? && r.outcome.value != SkippedBudget
  }

  /** `ranOn` with its default outcomes. */
  ghost predicate RanOn(rows: seq<Row>, agent: string, pass: Pass, day: string) {
    exists i :: 0 <= i < |rows| && Ran(rows[i], agent, pass, day)
  }

  predicate OkRun(r: Row, agent: string, pass: Pass) {
    r.agent == agent && r.pass == pass && r.outcome == Some(Ok)
  }

  /** The pass's most recently started ok run; of several started at once, the last inserted. */
  function LastOk(rows: seq<Row>, agent: string, pass: Pass): Option<Row> {
    if rows == [] then None
    else
      var r, before := rows[|rows| - 1], LastOk(rows[..|rows| - 1], agent, pass);
      if OkRun(r, agent, pass) && (before.Some? ==> before.value.startedAt <= r.startedAt) then Some(r) else before
  }

  // -------------------------------------------------------------- start rules

  datatype Config = Config(limit: nat, proactiveLimit: Option<nat>)

  function Floor(p: Pass): nat {
    match p
    case NightlyReview => 100_000
    case LessonsUpkeep => 30_000
    case QuietMoment => 50_000
    case SkillReview => 50_000
    case SkillCheck => 20_000
    case Digest => 0
    case Commitment => 30_000
    case Heartbeat => 30_000
    case HeartbeatTurn => 30_000
    case HeartbeatWake => 100_000
  }

  function PoolOf(cfg: Config, agent: string, pass: Pass, day: string): Pool {
    if cfg.proactiveLimit.None? then Pool(agent, day, false, false) else Pool(agent, day, true, Proactive(pass))
  }

  function LimitOf(cfg: Config, pool: Pool): nat {
    if pool.split && pool.proactive && cfg.proactiveLimit.Some? then cfg.proactiveLimit.value else cfg.limit
  }

  /** `poolRemaining`. */
  function Remaining(cfg: Config, rows: seq<Row>, agent: string, pass: Pass, day: string): int {
    var pool := PoolOf(cfg, agent, pass, day);
    LimitOf(cfg, pool) - Spent(rows, pool)
  }

  function EstimateFor(rows: seq<Row>, agent: string, pass: Pass): nat {
    var last := LastOk(rows, agent, pass);
    if pass == HeartbeatWake || last.None? || last.value.cost < Floor(pass) then Floor(pass) else last.value.cost
  }

  /** The passes that leave room for the day's nightly review, in the pool it spends from. */
  predicate BehindNightly(cfg: Config, pass: Pass) {
    && (pass == QuietMoment || pass == SkillReview || pass == SkillCheck
        || pass == Heartbeat || pass == HeartbeatTurn || pass == HeartbeatWake)
    && !(cfg.proactiveLimit.Some? && Proactive(pass))
  }

  ghost function NightlyReserve(cfg: Config, rows: seq<Row>, agent: string, pass: Pass, day: string): nat {
    if !BehindNightly(cfg, pass) || RanOn(rows, agent, NightlyReview, day) then 0
    else EstimateFor(rows, agent, NightlyReview)
  }

  ghost predicate CanStart(cfg: Config, rows: seq<Row>, agent: string, pass: Pass, day: string) {
    Remaining(cfg, rows, agent, pass, day) - NightlyReserve(cfg, rows, agent, pass, day) >=
      EstimateFor(rows, agent, pass)
  }

  ghost predicate OverAfterStart(cfg: Config, rows: seq<Row>, agent: string, pass: Pass, day: string) {
    Remaining(cfg, rows, agent, pass, day) - NightlyReserve(cfg, rows, agent, pass, day) < 0
  }

  predicate OverLimit(cfg: Config, rows: seq<Row>, agent: string, pass: Pass, day: string) {
    Remaining(cfg, rows, agent, pass, day) < 0
  }

  // ------------------------------------------------------ what the rules come to

  /** Row `i` is an ok run of the pass that no other one of it started after. */
  ghost predicate Newest(rows: seq<Row>, agent: string, pass: Pass, i: int) {
    && 0 <= i < |rows| && rows[i].agent == agent && rows[i].pass == pass && rows[i].outcome == Some(Ok)
    && forall j :: 0 <= j < |rows| && rows[j].agent == agent && rows[j].pass == pass && rows[j].outcome == Some(Ok) ==>
         rows[j].startedAt <= rows[i].startedAt
  }

  /**
   * A wake, and a pass with no ok run, is estimated at its floor; every other pass at the least amount
   * that is below neither its floor nor the cost of a newest ok run.
   */
  ghost predicate Estimated(rows: seq<Row>, agent: string, pass: Pass, est: int) {
    if pass == HeartbeatWake
       || (forall j :: 0 <= j < |rows| && rows[j].agent == agent && rows[j].pass == pass ==>
             rows[j].outcome != Some(Ok))
    then est == Floor(pass)
    else
      && est >= Floor(pass)
      && exists i :: && Newest(rows, agent, pass, i) && est >= rows[i].cost
                     && (est == Floor(pass) || est == rows[i].cost)
  }

  lemma {:induction false} LastOkIsNewest(rows: seq<Row>, agent: string, pass: Pass) returns (i: int)
    ensures var last := LastOk(rows, agent, pass);
            if last.Some? then Newest(rows, agent, pass, i) && rows[i] == last.value
            else forall j :: 0 <= j < |rows| ==> !OkRun(rows[j], agent, pass)
  {
    i := 0;
    if rows != [] {
      var n := |rows| - 1;
      var before := rows[..n];
      i := LastOkIsNewest(before, agent, pass);
      assert forall j :: 0 <= j < n ==> rows[j] == before[j];
      var last := LastOk(before, agent, pass);
      if OkRun(rows[n], agent, pass) && (last.None? || before[i].startedAt <= rows[n].startedAt) {
        i := n;
      }
    }
  }

  lemma EstimateIsLeast(rows: seq<Row>, agent: string, pass: Pass)
    ensures Estimated(rows, agent, pass, EstimateFor(rows, agent, pass))
  {
    var i := LastOkIsNewest(rows, agent, pass);
    if LastOk(rows, agent, pass).Some? {
      assert rows[i].outcome == Some(Ok);
    }
  }

  const BEHIND_NIGHTLY := {QuietMoment, SkillReview, SkillCheck, Heartbeat, HeartbeatTurn, HeartbeatWake}

  /** The rows that a pass's spend counts: the agent's of the day, on the pass's side of the split if there is one. */
  predicate Counts(cfg: Config, agent: string, pass: Pass, day: string, r: Row) {
    r.agent == agent && r.day == day && (cfg.proactiveLimit.Some? ==> (r.pass in PROACTIVE <==> pass in PROACTIVE))
  }

  /** The spend, row by row. */
  ghost predicate DaySpend(cfg: Config, rows: seq<Row>, agent: string, pass: Pass, day: string, sums: seq<int>) {
    && |sums| == |rows| + 1 && sums[0] == 0
    && forall i :: 0 <= i < |rows| ==>
         sums[i + 1] == sums[i] + if Counts(cfg, agent, pass, day, rows[i]) then rows[i].cost else 0
  }

  lemma CountsInPool(cfg: Config, agent: string, pass: Pass, day: string, r: Row)
    ensures InPool(PoolOf(cfg, agent, pass, day), r) <==> Counts(cfg, agent, pass, day, r)
  {
  }

  lemma {:induction false} SpendsByRow(cfg: Config, rows: seq<Row>, agent: string, pass: Pass, day: string)
    returns (sums: seq<int>)
    ensures DaySpend(cfg, rows, agent, pass, day, sums)
    ensures sums[|rows|] == Spent(rows, PoolOf(cfg, agent, pass, day))
  {
    if rows == [] {
      sums := [0];
    } else {
      var n := |rows| - 1;
      var before := SpendsByRow(cfg, rows[..n], agent, pass, day);
      CountsInPool(cfg, agent, pass, day, rows[n]);
      sums := before + [Spent(rows, PoolOf(cfg, agent, pass, day))];
      assert forall i :: 0 <= i < n ==> rows[i] == rows[..n][i];
    }
  }

  /** No nightly review of the day has ended, or it was only skipped. */
  ghost predicate NightlyDue(rows: seq<Row>, agent: string, day: string) {
    forall i :: 0 <= i < |rows| && rows[i].agent == agent && rows[i].pass == NightlyReview && rows[i].day == day ==>
      rows[i].outcome == None || rows[i].outcome == Some(SkippedBudget)
  }

  lemma NightlyRan(rows: seq<Row>, agent: string, day: string)
    ensures RanOn(rows, agent, NightlyReview, day) <==> !NightlyDue(rows, agent, day)
  {
    if RanOn(rows, agent, NightlyReview, day) {
      var i :| 0 <= i < |rows| && Ran(rows[i], agent, NightlyReview, day);
      assert rows[i].outcome != None && rows[i].outcome != Some(SkippedBudget);
    } else {
      assert forall i :: 0 <= i < |rows| ==> !Ran(rows[i], agent, NightlyReview, day);
    }
  }

  /**
   * A pass starts exactly when the day's spend, its own estimate, and for a pass behind a nightly
   * review that is still due the nightly's, are together within its limit; it is stopped exactly when
   * the spend alone is not.
   */
  lemma StartsExactly(cfg: Config, rows: seq<Row>, agent: string, pass: Pass, day: string)
    returns (est: int, nightly: int, sums: seq<int>)
    ensures Estimated(rows, agent, pass, est) && Estimated(rows, agent, NightlyReview, nightly)
    ensures DaySpend(cfg, rows, agent, pass, day, sums)
    ensures var shared := cfg.proactiveLimit.None? || pass !in PROACTIVE;
            var limit := if shared then cfg.limit else cfg.proactiveLimit.value;
            var kept := if pass in BEHIND_NIGHTLY && shared && NightlyDue(rows, agent, day) then nightly else 0;
            && (CanStart(cfg, rows, agent, pass, day) <==> sums[|rows|] + est + kept <= limit)
            && (OverLimit(cfg, rows, agent, pass, day) <==> sums[|rows|] > limit)
  {
    est, nightly := EstimateFor(rows, agent, pass), EstimateFor(rows, agent, NightlyReview);
    sums := SpendsByRow(cfg, rows, agent, pass, day);
    EstimateIsLeast(rows, agent, pass);
    EstimateIsLeast(rows, agent, NightlyReview);
    LimitAndReserve(cfg, rows, agent, pass, day);
  }

  lemma LimitAndReserve(cfg: Config, rows: seq<Row>, agent: string, pass: Pass, day: string)
    ensures var shared := cfg.proactiveLimit.None? || pass !in PROACTIVE;
            && LimitOf(cfg, PoolOf(cfg, agent, pass, day)) == (if shared then cfg.limit else cfg.proactiveLimit.value)
            && NightlyReserve(cfg, rows, agent, pass, day) ==
               if pass in BEHIND_NIGHTLY && shared && NightlyDue(rows, agent, day)
               then EstimateFor(rows, agent, NightlyReview) else 0
  {
    NightlyRan(rows, agent, day);
  }

  /**
   * What a limit must be, in micro-dollars, for a pass to start on an empty ledger: its floor, and the
   * nightly's 100_000 for one behind it.
   */
  lemma FirstStarts(limit: nat, proactive: nat, agent: string, day: string)
    ensures var shared := Config(limit, None);
            && (CanStart(shared, [], agent, NightlyReview, day) <==> limit >= 100_000)
            && (CanStart(shared, [], agent, LessonsUpkeep, day) <==> limit >= 30_000)
            && (CanStart(shared, [], agent, QuietMoment, day) <==> limit >= 150_000)
            && (CanStart(shared, [], agent, SkillReview, day) <==> limit >= 150_000)
            && (CanStart(shared, [], agent, SkillCheck, day) <==> limit >= 120_000)
            && CanStart(shared, [], agent, Digest, day)
            && (CanStart(shared, [], agent, Commitment, day) <==> limit >= 30_000)
            && (CanStart(shared, [], agent, Heartbeat, day) <==> limit >= 130_000)
            && (CanStart(shared, [], agent, HeartbeatTurn, day) <==> limit >= 130_000)
            && (CanStart(shared, [], agent, HeartbeatWake, day) <==> limit >= 200_000)
    ensures var split := Config(limit, Some(proactive));
            && (CanStart(split, [], agent, SkillCheck, day) <==> limit >= 120_000)
            && (CanStart(split, [], agent, Heartbeat, day) <==> proactive >= 30_000)
            && (CanStart(split, [], agent, HeartbeatWake, day) <==> proactive >= 100_000)
  {
  }

  /**
   * The two halves of the start rule agree: when nothing else is written in between, a start passes
   * the re-check after its insert exactly when it passed the check before it.
   */
  lemma CheckAndRecheckAgree(cfg: Config, rows: seq<Row>, agent: string, pass: Pass, day: string, startedAt: int)
    ensures var inserted := rows + [Row(agent, pass, day, startedAt, EstimateFor(rows, agent, pass), None)];
            CanStart(cfg, rows, agent, pass, day) <==> !OverAfterStart(cfg, inserted, agent, pass, day)
  {
    var r := Row(agent, pass, day, startedAt, EstimateFor(rows, agent, pass), None);
    var inserted := rows + [r];
    assert inserted[..|inserted| - 1] == rows;
    assert RanOn(inserted, agent, NightlyReview, day) <==> RanOn(rows, agent, NightlyReview, day) by {
      assert forall i :: 0 <= i < |rows| ==> inserted[i] == rows[i];
    }
  }

  // -------------------------------------------------------------- split pools

  /** The rows of one side of the split. */
  function Side(rows: seq<Row>, proactive: bool): seq<Row> {
    if rows == [] then []
    else
      var r, before := rows[|rows| - 1], Side(rows[..|rows| - 1], proactive);
      if Proactive(r.pass) == proactive then before + [r] else before
  }

  lemma {:induction false} SideSpends(rows: seq<Row>, pool: Pool)
    requires pool.split
    ensures Spent(Side(rows, pool.proactive), pool) == Spent(rows, pool)
  {
    if rows != [] {
      var before, r := rows[..|rows| - 1], rows[|rows| - 1];
      SideSpends(before, pool);
      var side := Side(before, pool.proactive);
      assert (side + [r])[..|side|] == side;
    }
  }

  lemma {:induction false} SideLastOk(rows: seq<Row>, agent: string, pass: Pass)
    ensures LastOk(Side(rows, Proactive(pass)), agent, pass) == LastOk(rows, agent, pass)
  {
    if rows != [] {
      var before, r := rows[..|rows| - 1], rows[|rows| - 1];
      SideLastOk(before, agent, pass);
      var side := Side(before, Proactive(pass));
      assert (side + [r])[..|side|] == side;
    }
  }

  lemma {:induction false} SideRanOn(rows: seq<Row>, agent: string, pass: Pass, day: string)
    ensures RanOn(Side(rows, Proactive(pass)), agent, pass, day) <==> RanOn(rows, agent, pass, day)
  {
    if rows != [] {
      var before, r := rows[..|rows| - 1], rows[|rows| - 1];
      SideRanOn(before, agent, pass, day);
      LastRowReads(rows, agent, pass, day);
      var side := Side(before, Proactive(pass));
      LastRowReads(side + [r], agent, pass, day);
      assert (side + [r])[..|side|] == side;
    }
  }

  lemma LastRowReads(rows: seq<Row>, agent: string, pass: Pass, day: string)
    requires rows != []
    ensures RanOn(rows, agent, pass, day) <==>
            RanOn(rows[..|rows| - 1], agent, pass, day) || Ran(rows[|rows| - 1], agent, pass, day)
  {
    var before := rows[..|rows| - 1];
    if RanOn(before, agent, pass, day) {
      var i :| 0 <= i < |before| && Ran(before[i], agent, pass, day);
      assert Ran(rows[i], agent, pass, day);
    }
    if RanOn(rows, agent, pass, day) {
      var i :| 0 <= i < |rows| && Ran(rows[i], agent, pass, day);
      assert i < |before| ==> Ran(before[i], agent, pass, day);
    }
  }

  lemma SideRemaining(cfg: Config, rows: seq<Row>, agent: string, pass: Pass, day: string)
    requires cfg.proactiveLimit.Some?
    ensures Remaining(cfg, Side(rows, Proactive(pass)), agent, pass, day) == Remaining(cfg, rows, agent, pass, day)
  {
    SideSpends(rows, PoolOf(cfg, agent, pass, day));
  }

  lemma SideReserve(cfg: Config, rows: seq<Row>, agent: string, pass: Pass, day: string)
    requires cfg.proactiveLimit.Some?
    ensures NightlyReserve(cfg, Side(rows, Proactive(pass)), agent, pass, day) ==
            NightlyReserve(cfg, rows, agent, pass, day)
  {
    if !Proactive(pass) {
      SideLastOk(rows, agent, NightlyReview);
      SideRanOn(rows, agent, NightlyReview, day);
    }
  }

  /** With split pools, every start and stop decision of a pass is the same whatever the other side's rows are. */
  lemma SplitSidesAreIndependent(cfg: Config, rows: seq<Row>, agent: string, pass: Pass, day: string)
    requires cfg.proactiveLimit.Some?
    ensures var own := Side(rows, Proactive(pass));
            && (CanStart(cfg, rows, agent, pass, day) <==> CanStart(cfg, own, agent, pass, day))
            && (OverAfterStart(cfg, rows, agent, pass, day) <==> OverAfterStart(cfg, own, agent, pass, day))
            && (OverLimit(cfg, rows, agent, pass, day) <==> OverLimit(cfg, own, agent, pass, day))
            && EstimateFor(rows, agent, pass) == EstimateFor(own, agent, pass)
  {
    SideRemaining(cfg, rows, agent, pass, day);
    SideReserve(cfg, rows, agent, pass, day);
    SideLastOk(rows, agent, pass);
  }
}
