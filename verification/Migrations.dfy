/**
 * The migration runner across replicas (src/db/migrate.ts): each file's transaction
 * inserts its version row first, so a second replica waits for the first to commit or
 * roll back. No lock is assumed around a run.
 */
module Migrations {
  import opened Common

  datatype Migration = Migration(version: string, sql: string)

  /** What `loadMigrations` checks. */
  ghost predicate DistinctVersions(ms: seq<Migration>) {
    forall i, j :: 0 <= i < j < |ms| ==> ms[i].version != ms[j].version
  }

  function VersionsOf(ms: seq<Migration>): seq<string> {
    seq(|ms|, i requires 0 <= i < |ms| => ms[i].version)
  }

  // -------------------------------------------------------- one replica on its own

  /** The database: the committed migrations, in commit order. */
  class Database {
    var schema: seq<Migration>

    /** The claim and the file in one transaction; `fails` makes the file's SQL throw, which rolls both back. */
    method Transaction(m: Migration, fails: bool) returns (ran: Option<bool>)
      modifies this
      ensures ran == if m.version in VersionsOf(old(schema)) then Some(false) else if fails then None else Some(true)
      ensures schema == if ran == Some(true) then old(schema) + [m] else old(schema)
    {
      var taken := false;
      for i := 0 to |schema|
        invariant taken <==> m.version in VersionsOf(schema)[..i]
      {
        taken := taken || schema[i].version == m.version;
        assert VersionsOf(schema)[..i + 1] == VersionsOf(schema)[..i] + [schema[i].version];
      }
      assert VersionsOf(schema)[..|schema|] == VersionsOf(schema);
      if taken {
        return Some(false);
      }
      if fails {
        return None;
      }
      schema := schema + [m];
      return Some(true);
    }

    /** The loop of `runMigrations` while no other replica runs; `failing` names the files whose SQL throws. */
    method RunMigrations(ms: seq<Migration>, failing: set<string>)
      returns (ok: bool, applied: seq<string>, skipped: seq<string>)
      requires DistinctVersions(ms) && schema <= ms
      modifies this
      ensures old(schema) <= schema <= ms
      ensures skipped == VersionsOf(old(schema)) || !ok
      ensures skipped + applied == if ok then VersionsOf(ms) else VersionsOf(schema)
      ensures ok ==> schema == ms
      ensures !ok ==> |schema| < |ms| && ms[|schema|].version in failing
      ensures forall v :: v in applied ==> v !in failing
    {
      applied, skipped := [], [];
      ghost var n := |schema|;
      assert schema == ms[..n] && VersionsOf(ms[..0]) == [] && VersionsOf(ms[n..n]) == [];
      for i := 0 to |ms|
        invariant Reached(ms, n, i, schema, applied, skipped)
        invariant forall v :: v in applied ==> v !in failing
      {
        var m := ms[i];
        ghost var before := schema;
        VersionTaken(ms, |schema|, i);
        var ran := Transaction(m, m.version in failing);
        if ran.None? {
          ReachedEnd(ms, n, i, schema, applied, skipped);
          return false, applied, skipped;
        }
        ReachedNext(ms, n, i, before, applied, skipped, ran.value);
        if ran.value {
          applied := applied + [m.version];
        } else {
          skipped := skipped + [m.version];
        }
      }
      ReachedEnd(ms, n, |ms|, schema, applied, skipped);
      return true, applied, skipped;
    }
  }

  /** After `i` files, of which the first `n` were there before. */
  ghost predicate Reached(
      ms: seq<Migration>, n: nat, i: nat, schema: seq<Migration>, applied: seq<string>, skipped: seq<string>)
  {
    && n <= |ms| && i <= |ms|
    && schema == (if i < n then ms[..n] else ms[..i])
    && skipped == (if i < n then VersionsOf(ms[..i]) else VersionsOf(ms[..n]))
    && applied == if i < n then [] else VersionsOf(ms[n..i])
  }

  lemma ReachedNext(
      ms: seq<Migration>, n: nat, i: nat, schema: seq<Migration>, applied: seq<string>, skipped: seq<string>,
      ran: bool)
    requires i < |ms| && Reached(ms, n, i, schema, applied, skipped) && (ran <==> i >= n)
    ensures Reached(ms, n, i + 1, if ran then schema + [ms[i]] else schema,
              if ran then applied + [ms[i].version] else applied, if ran then skipped else skipped + [ms[i].version])
  {
    if ran {
      VersionsStep(ms, n, i);
      assert ms[..i + 1] == ms[..i] + [ms[i]];
    } else {
      VersionsStep(ms, 0, i);
      assert i + 1 == n ==> VersionsOf(ms[n..i + 1]) == [];
    }
  }

  lemma ReachedEnd(
      ms: seq<Migration>, n: nat, i: nat, schema: seq<Migration>, applied: seq<string>, skipped: seq<string>)
    requires Reached(ms, n, i, schema, applied, skipped)
    ensures ms[..n] <= schema <= ms && (i == |ms| ==> schema == ms)
    ensures i >= n ==> skipped == VersionsOf(ms[..n]) && skipped + applied == VersionsOf(schema)
  {
    assert ms[..|ms|] == ms;
    if i >= n {
      VersionsJoin(ms, n, i);
      assert ms[..n] == ms[..i][..n];
    }
  }

  lemma VersionsStep(ms: seq<Migration>, a: nat, i: nat)
    requires a <= i < |ms|
    ensures VersionsOf(ms[a..i + 1]) == VersionsOf(ms[a..i]) + [ms[i].version]
    ensures a == 0 ==> ms[a..i + 1] == ms[..i + 1] && ms[a..i] == ms[..i]
  {
  }

  lemma VersionsJoin(ms: seq<Migration>, n: nat, i: nat)
    requires n <= i <= |ms|
    ensures VersionsOf(ms[..n]) + VersionsOf(ms[n..i]) == VersionsOf(ms[..i])
  {
  }

  /** With distinct versions, a file's version is taken exactly when the prefix reaches it. */
  lemma VersionTaken(ms: seq<Migration>, n: nat, i: nat)
    requires DistinctVersions(ms) && n <= |ms| && i < |ms|
    ensures ms[i].version in VersionsOf(ms[..n]) <==> i < n
  {
    if i < n {
      assert VersionsOf(ms[..n])[i] == ms[i].version;
    }
  }

  // --------------------------------------------------------------- any number of them

  /** A replica: the file it is at, whether its transaction holds that file's row, and what it has reported. */
  datatype Phase = Between | Holding | Executed(on: seq<Migration>) | Gone

  datatype Replica = Replica(next: nat, phase: Phase, applied: seq<string>, skipped: seq<string>)

  /** The committed files in commit order, by whom, and the replicas. */
  datatype State = State(schema: seq<Migration>, who: seq<nat>, replicas: seq<Replica>)

  datatype Event = Join | Claim(id: nat) | Execute(id: nat) | Commit(id: nat) | Crash(id: nat)

  predicate Holds(r: Replica) {
    r.phase.Holding? || r.phase.Executed?
  }

  /** Some other transaction holds an uncommitted row of this version. */
  ghost predicate Blocked(ms: seq<Migration>, s: State, id: nat)
    requires id < |s.replicas| && s.replicas[id].next < |ms|
  {
    exists j :: 0 <= j < |s.replicas| && j != id && Holds(s.replicas[j]) && s.replicas[j].next < |ms| &&
                ms[s.replicas[j].next].version == ms[s.replicas[id].next].version
  }

  function Claimed(ms: seq<Migration>, s: State, r: Replica): Replica
    requires r.next < |ms|
  {
    var v := ms[r.next].version;
    if v in VersionsOf(s.schema) then r.(next := r.next + 1, skipped := r.skipped + [v]) else r.(phase := Holding)
  }

  ghost predicate Possible(ms: seq<Migration>, s: State, e: Event) {
    match e
    case Join => true
    case Claim(id) =>
      && id < |s.replicas| && s.replicas[id].phase.Between? && s.replicas[id].next < |ms|
      && !Blocked(ms, s, id)
    case Execute(id) => id < |s.replicas| && s.replicas[id].phase.Holding?
    case Commit(id) => id < |s.replicas| && s.replicas[id].phase.Executed? && s.replicas[id].next < |ms|
    case Crash(id) => id < |s.replicas|
  }

  ghost function Next(ms: seq<Migration>, s: State, e: Event): State
    requires Possible(ms, s, e)
  {
    match e
    case Join => s.(replicas := s.replicas + [Replica(0, Between, [], [])])
    case Claim(id) => s.(replicas := s.replicas[id := Claimed(ms, s, s.replicas[id])])
    case Execute(id) => s.(replicas := s.replicas[id := s.replicas[id].(phase := Executed(s.schema))])
    case Commit(id) =>
      var r := s.replicas[id];
      State(s.schema + [ms[r.next]], s.who + [id],
            s.replicas[id := r.(next := r.next + 1, phase := Between, applied := r.applied + [ms[r.next].version])])
    case Crash(id) => s.(replicas := s.replicas[id := s.replicas[id].(phase := Gone)])
  }

  ghost function Play(ms: seq<Migration>, es: seq<Event>): Option<State> {
    if es == [] then Some(State([], [], []))
    else
      var before, e := Play(ms, es[..|es| - 1]), es[|es| - 1];
      if before.None? || !Possible(ms, before.value, e) then None else Some(Next(ms, before.value, e))
  }

  /** The versions a replica committed, in order. */
  function CommittedBy(s: seq<Migration>, who: seq<nat>, id: nat): seq<string>
    requires |s| == |who|
  {
    if s == [] then []
    else
      var n := |s| - 1;
      CommittedBy(s[..n], who[..n], id) + if who[n] == id then [s[n].version] else []
  }

  ghost predicate ReplicaKept(ms: seq<Migration>, s: State, id: nat)
    requires id < |s.replicas| && |s.schema| == |s.who|
  {
    var r := s.replicas[id];
    && r.next <= |s.schema|
    && (Holds(r) ==> r.next == |s.schema| < |ms|)
    && (r.phase.Executed? ==> r.phase.on == s.schema)
    && r.applied == CommittedBy(s.schema, s.who, id)
    && |r.applied| + |r.skipped| == r.next
  }

  ghost predicate OneHolder(s: State) {
    forall i, j :: 0 <= i < j < |s.replicas| ==> !(Holds(s.replicas[i]) && Holds(s.replicas[j]))
  }

  ghost predicate Kept(ms: seq<Migration>, s: State) {
    && s.schema <= ms && |s.schema| == |s.who|
    && (forall i :: 0 <= i < |s.who| ==> s.who[i] < |s.replicas|)
    && (forall id: nat :: id < |s.replicas| ==> ReplicaKept(ms, s, id))
    && OneHolder(s)
  }

  lemma {:induction false} NoneBy(s: seq<Migration>, who: seq<nat>, id: nat)
    requires |s| == |who| && forall i :: 0 <= i < |who| ==> who[i] != id
    ensures CommittedBy(s, who, id) == []
  {
    if s != [] {
      NoneBy(s[..|s| - 1], who[..|s| - 1], id);
    }
  }

  lemma OneMoreBy(s: seq<Migration>, who: seq<nat>, m: Migration, one: nat, id: nat)
    requires |s| == |who|
    ensures CommittedBy(s + [m], who + [one], id) == CommittedBy(s, who, id) + if one == id then [m.version] else []
  {
    assert (s + [m])[..|s|] == s && (who + [one])[..|who|] == who;
  }

  lemma JoinKeeps(ms: seq<Migration>, s: State)
    requires Kept(ms, s)
    ensures Kept(ms, Next(ms, s, Join))
  {
    var t := Next(ms, s, Join);
    NoneBy(s.schema, s.who, |s.replicas|);
    forall id: nat | id < |t.replicas|
      ensures ReplicaKept(ms, t, id)
    {
      assert id < |s.replicas| ==> ReplicaKept(ms, s, id);
    }
  }

  lemma ClaimKeeps(ms: seq<Migration>, s: State, id: nat)
    requires DistinctVersions(ms) && Kept(ms, s) && Possible(ms, s, Claim(id))
    ensures Kept(ms, Next(ms, s, Claim(id)))
  {
    var t, r := Next(ms, s, Claim(id)), s.replicas[id];
    assert ReplicaKept(ms, s, id);
    VersionTaken(ms, |s.schema|, r.next);
    assert ms[..|s.schema|] == s.schema;
    forall j: nat | j < |t.replicas|
      ensures ReplicaKept(ms, t, j)
    {
      assert ReplicaKept(ms, s, j);
    }
    if Holds(t.replicas[id]) {
      forall j: nat | j < |s.replicas| && j != id
        ensures !Holds(s.replicas[j])
      {
        assert ReplicaKept(ms, s, j);
      }
    }
  }

  lemma CommitKeeps(ms: seq<Migration>, s: State, id: nat)
    requires Kept(ms, s) && Possible(ms, s, Commit(id))
    ensures Kept(ms, Next(ms, s, Commit(id)))
  {
    var t, r := Next(ms, s, Commit(id)), s.replicas[id];
    assert ReplicaKept(ms, s, id);
    forall j: nat | j < |t.replicas|
      ensures ReplicaKept(ms, t, j)
    {
      assert ReplicaKept(ms, s, j);
      OneMoreBy(s.schema, s.who, ms[r.next], id, j);
      assert j != id ==> !Holds(s.replicas[j]);
    }
  }

  lemma OtherKeeps(ms: seq<Migration>, s: State, e: Event)
    requires Kept(ms, s) && Possible(ms, s, e) && (e.Execute? || e.Crash?)
    ensures Kept(ms, Next(ms, s, e))
  {
    var t := Next(ms, s, e);
    assert ReplicaKept(ms, s, e.id);
    forall j: nat | j < |t.replicas|
      ensures ReplicaKept(ms, t, j)
    {
      assert ReplicaKept(ms, s, j);
    }
  }

  lemma {:induction false} PlayKeeps(ms: seq<Migration>, es: seq<Event>)
    requires DistinctVersions(ms) && Play(ms, es).Some?
    ensures Kept(ms, Play(ms, es).value)
  {
    if es != [] {
      PlayKeeps(ms, es[..|es| - 1]);
      var s, e := Play(ms, es[..|es| - 1]).value, es[|es| - 1];
      match e {
        case Join => JoinKeeps(ms, s);
        case Claim(id) => ClaimKeeps(ms, s, id);
        case Commit(id) => CommitKeeps(ms, s, id);
        case _ => OtherKeeps(ms, s, e);
      }
    }
  }

  /**
   * Over every interleaving of any number of replicas, each crashing at any step, the committed files
   * are a prefix of the list, each once and in order; every file ran on exactly the files before it;
   * a replica's report is what it committed itself; and one that came to the end of the list leaves it
   * whole.
   */
  lemma SchemaIsAPrefix(ms: seq<Migration>, es: seq<Event>)
    requires DistinctVersions(ms) && Play(ms, es).Some?
    ensures var s := Play(ms, es).value;
            && s.schema <= ms && |s.who| == |s.schema|
            && (forall id: nat :: id < |s.replicas| ==>
                  var r := s.replicas[id];
                  && r.applied == CommittedBy(s.schema, s.who, id)
                  && (r.phase.Executed? ==> r.next < |ms| && r.phase.on == ms[..r.next] == s.schema)
                  && (r.next >= |ms| ==> s.schema == ms))
  {
    PlayKeeps(ms, es);
    var s := Play(ms, es).value;
    forall id: nat | id < |s.replicas|
      ensures ReplicaKept(ms, s, id)
      ensures s.replicas[id].next >= |ms| ==> s.schema == ms
    {
      assert ReplicaKept(ms, s, id);
      assert ms[..|s.schema|] == s.schema;
    }
    assert ms[..|s.schema|] == s.schema;
  }

  /** No version is reported as applied by two replicas. */
  lemma AppliedOnce(ms: seq<Migration>, es: seq<Event>, i: nat, j: nat, v: string)
    requires DistinctVersions(ms) && Play(ms, es).Some?
    requires var s := Play(ms, es).value;
             i < |s.replicas| && j < |s.replicas| && v in s.replicas[i].applied && v in s.replicas[j].applied
    ensures i == j
  {
    PlayKeeps(ms, es);
    var s := Play(ms, es).value;
    assert ReplicaKept(ms, s, i) && ReplicaKept(ms, s, j);
    var a := CommitterOf(s.schema, s.who, i, v);
    var b := CommitterOf(s.schema, s.who, j, v);
    assert ms[a].version == ms[b].version;
  }

  lemma {:induction false} CommitterOf(s: seq<Migration>, who: seq<nat>, id: nat, v: string) returns (k: nat)
    requires |s| == |who| && v in CommittedBy(s, who, id)
    ensures k < |s| && s[k].version == v && who[k] == id
  {
    var n := |s| - 1;
    if who[n] == id && s[n].version == v {
      k := n;
    } else {
      k := CommitterOf(s[..n], who[..n], id, v);
    }
  }

  // -------------------------------------------------------- nothing stands in the way

  ghost predicate NobodyHolds(s: State) {
    forall j :: 0 <= j < |s.replicas| ==> !Holds(s.replicas[j])
  }

  lemma PlayedOn(ms: seq<Migration>, es: seq<Event>, e: Event)
    requires Play(ms, es).Some? && Possible(ms, Play(ms, es).value, e)
    ensures Play(ms, es + [e]) == Some(Next(ms, Play(ms, es).value, e))
  {
    assert (es + [e])[..|es|] == es;
  }

  /** With no transaction open a replica gets through its next file, whether it is there already or not. */
  lemma OneMoreFile(ms: seq<Migration>, es: seq<Event>, id: nat) returns (more: seq<Event>)
    requires Play(ms, es).Some? && NobodyHolds(Play(ms, es).value)
    requires var s := Play(ms, es).value;
             id < |s.replicas| && s.replicas[id].phase.Between? && s.replicas[id].next < |ms|
    ensures es <= more && Play(ms, more).Some? && NobodyHolds(Play(ms, more).value)
    ensures var s, t := Play(ms, es).value, Play(ms, more).value;
            id < |t.replicas| && t.replicas[id].phase.Between? && t.replicas[id].next == s.replicas[id].next + 1
  {
    var s := Play(ms, es).value;
    PlayedOn(ms, es, Claim(id));
    more := es + [Claim(id)];
    if ms[s.replicas[id].next].version !in VersionsOf(s.schema) {
      PlayedOn(ms, more, Execute(id));
      more := more + [Execute(id)];
      PlayedOn(ms, more, Commit(id));
      more := more + [Commit(id)];
    }
  }

  lemma {:induction false} RunsAlone(ms: seq<Migration>, es: seq<Event>, id: nat) returns (more: seq<Event>)
    requires DistinctVersions(ms) && Play(ms, es).Some? && NobodyHolds(Play(ms, es).value)
    requires var s := Play(ms, es).value;
             id < |s.replicas| && s.replicas[id].phase.Between? && s.replicas[id].next <= |ms|
    ensures es <= more && Play(ms, more).Some? && Play(ms, more).value.schema == ms
    decreases |ms| - Play(ms, es).value.replicas[id].next
  {
    if Play(ms, es).value.replicas[id].next < |ms| {
      more := OneMoreFile(ms, es, id);
      more := RunsAlone(ms, more, id);
    } else {
      more := es;
      SchemaIsAPrefix(ms, es);
    }
  }

  /** Whatever has happened, a replica that joins once the open transaction is gone can go on to the whole list. */
  lemma CanAlwaysFinish(ms: seq<Migration>, es: seq<Event>) returns (more: seq<Event>)
    requires DistinctVersions(ms) && Play(ms, es).Some?
    ensures es <= more && Play(ms, more).Some? && Play(ms, more).value.schema == ms
  {
    var s := Play(ms, es).value;
    PlayKeeps(ms, es);
    more := es;
    if j: nat :| j < |s.replicas| && Holds(s.replicas[j]) {
      PlayedOn(ms, es, Crash(j));
      more := es + [Crash(j)];
    }
    var id := |Play(ms, more).value.replicas|;
    PlayedOn(ms, more, Join);
    more := more + [Join];
    more := RunsAlone(ms, more, id);
  }
}
