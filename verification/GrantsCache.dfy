/**
 * The cache of a persona's stored grants (src/access/role.ts): a TTL cache, one shared
 * read in flight per persona, and a generation that invalidations move. A read is known
 * by its number; its grants are whatever the database held when it ran.
 */
module GrantsCache {
  import opened Common

  const TTL := 5_000
  const FAILURE_TTL := 2_000

  datatype Phase = Reading | Settled(ok: bool, at: int)

  /** A read: whose, the generation it began in, and the event that began it. */
  datatype Read = Read(persona: string, gen: nat, begun: nat, phase: Phase)

  datatype Cached = Cached(until: int, read: nat)

  datatype State = State(cache: map<string, Cached>, inflight: map<string, nat>, generation: nat, started: seq<Read>)

  /** What a call is given: cached grants, the promise of a read in flight, or that of a new read. */
  datatype Answer = Hit(read: nat) | Pending(read: nat) | Began(read: nat)

  datatype Event =
    | Call(persona: string, now: int)
    | Complete(read: nat, now: int, failed: bool)
    | Finally(read: nat)
    | Invalidate(persona: string)   // "" stands for every persona

  // -------------------------------------------------------------- specification

  function AnswerTo(s: State, persona: string, now: int): Answer {
    if persona in s.cache && now < s.cache[persona].until then Hit(s.cache[persona].read)
    else if persona in s.inflight then Pending(s.inflight[persona])
    else Began(|s.started|)
  }

  function Called(s: State, persona: string, now: int, at: nat): State {
    if AnswerTo(s, persona, now).Began?
    then s.(started := s.started + [Read(persona, s.generation, at, Reading)],
            inflight := s.inflight[persona := |s.started|])
    else s
  }

  predicate CanComplete(s: State, r: nat) {
    r < |s.started| && s.started[r].phase.Reading?
  }

  function Completed(s: State, r: nat, now: int, failed: bool): State
    requires CanComplete(s, r)
  {
    var read := s.started[r];
    s.(started := s.started[r := read.(phase := Settled(!failed, now))],
       cache := if read.gen == s.generation
                then s.cache[read.persona := Cached(now + if failed then FAILURE_TTL else TTL, r)] else s.cache)
  }

  /** The promise's `finally`, some time after the read settled. */
  predicate CanClear(s: State, r: nat) {
    r < |s.started| && s.started[r].phase.Settled?
  }

  function Cleared(s: State, r: nat): State
    requires CanClear(s, r)
  {
    var p := s.started[r].persona;
    if p in s.inflight && s.inflight[p] == r then s.(inflight := s.inflight - {p}) else s
  }

  function Invalidated(s: State, persona: string): State {
    if persona != ""
    then s.(generation := s.generation + 1, cache := s.cache - {persona}, inflight := s.inflight - {persona})
    else s.(generation := s.generation + 1, cache := map[], inflight := map[])
  }

  /** The module's own state, changed in place. */
  class Grants {
    var cache: map<string, Cached>
    var inflight: map<string, nat>
    var generation: nat
    var started: seq<Read>

    ghost function View(): State
      reads this
    {
      State(cache, inflight, generation, started)
    }

    constructor ()
      ensures View() == State(map[], map[], 0, [])
    {
      cache, inflight, generation, started := map[], map[], 0, [];
    }

    method StoredGrants(persona: string, now: int, at: nat) returns (answer: Answer)
      modifies this
      ensures answer == AnswerTo(old(View()), persona, now)
      ensures View() == Called(old(View()), persona, now, at)
    {
      if persona in cache {
        var hit := cache[persona];
        if now < hit.until {
          return Hit(hit.read);
        }
      }
      if persona in inflight {
        return Pending(inflight[persona]);
      }
      var p := |started|;
      started := started + [Read(persona, generation, at, Reading)];
      inflight := inflight[persona := p];
      return Began(p);
    }

    method ReadEnded(r: nat, now: int, failed: bool)
      requires CanComplete(View(), r)
      modifies this
      ensures View() == Completed(old(View()), r, now, failed)
    {
      var read := started[r];
      started := started[r := read.(phase := Settled(!failed, now))];
      if read.gen == generation {
        cache := cache[read.persona := Cached(now + if failed then FAILURE_TTL else TTL, r)];
      }
    }

    method Finalize(r: nat)
      requires CanClear(View(), r)
      modifies this
      ensures View() == Cleared(old(View()), r)
    {
      var p := started[r].persona;
      if p in inflight && inflight[p] == r {
        inflight := inflight - {p};
      }
    }

    method InvalidateGrants(persona: string)
      modifies this
      ensures View() == Invalidated(old(View()), persona)
    {
      generation := generation + 1;
      if persona != "" {
        cache := cache - {persona};
        inflight := inflight - {persona};
      } else {
        cache := map[];
        inflight := map[];
      }
    }
  }

  // ------------------------------------------------------------------- histories

  predicate Possible(s: State, e: Event) {
    match e
    case Complete(r, _, _) => CanComplete(s, r)
    case Finally(r) => CanClear(s, r)
    case _ => true
  }

  function Next(s: State, e: Event, at: nat): State
    requires Possible(s, e)
  {
    match e
    case Call(p, now) => Called(s, p, now, at)
    case Complete(r, now, failed) => Completed(s, r, now, failed)
    case Finally(r) => Cleared(s, r)
    case Invalidate(p) => Invalidated(s, p)
  }

  /** The state after a history, if each of its events was possible when it came. */
  function Play(es: seq<Event>): Option<State> {
    if es == [] then Some(State(map[], map[], 0, []))
    else
      var before, e := Play(es[..|es| - 1]), es[|es| - 1];
      if before.None? || !Possible(before.value, e) then None else Some(Next(before.value, e, |es| - 1))
  }

  predicate Hits(e: Event, p: string) {
    e.Invalidate? && (e.persona == "" || e.persona == p)
  }

  /** No invalidation of the persona since event `b`. */
  ghost predicate NoneSince(es: seq<Event>, b: nat, p: string) {
    forall j :: b < j < |es| ==> !Hits(es[j], p)
  }

  /** No invalidation of any persona since event `b`. */
  ghost predicate NothingSince(es: seq<Event>, b: nat) {
    forall j :: b < j < |es| ==> !es[j].Invalidate?
  }

  ghost predicate Begun(es: seq<Event>, r: Read) {
    r.begun < |es| && es[r.begun].Call? && es[r.begun].persona == r.persona
  }

  /**
   * A read keeps its caller's event, its generation counts invalidations, and unless overtaken it is the one
   * in flight.
   */
  ghost predicate ReadKept(es: seq<Event>, s: State, i: nat)
    requires i < |s.started|
  {
    var r := s.started[i];
    && Begun(es, r)
    && r.gen <= s.generation && (r.gen == s.generation <==> NothingSince(es, r.begun))
    && (r.phase.Reading? && NoneSince(es, r.begun, r.persona) ==> r.persona in s.inflight && s.inflight[r.persona] == i)
  }

  ghost predicate CacheKept(es: seq<Event>, s: State, p: string) {
    p in s.cache ==> Fresh(es, s, p, s.cache[p].read) && InTime(s, s.cache[p])
  }

  ghost predicate InflightKept(es: seq<Event>, s: State, p: string) {
    p in s.inflight ==> Fresh(es, s, p, s.inflight[p])
  }

  ghost predicate Kept(es: seq<Event>, s: State) {
    && (forall i: nat :: i < |s.started| ==> ReadKept(es, s, i))
    && (forall p :: CacheKept(es, s, p))
    && (forall p :: InflightKept(es, s, p))
  }

  /** A read of the persona that no invalidation of it has overtaken. */
  ghost predicate Fresh(es: seq<Event>, s: State, p: string, r: nat) {
    r < |s.started| && s.started[r].persona == p && NoneSince(es, s.started[r].begun, p)
  }

  /** A cached entry lives for its read's time to live from when the read settled. */
  ghost predicate InTime(s: State, c: Cached) {
    c.read < |s.started| && s.started[c.read].phase.Settled? &&
    c.until == s.started[c.read].phase.at + if s.started[c.read].phase.ok then TTL else FAILURE_TTL
  }

  lemma SinceSteps(es: seq<Event>, b: nat, p: string)
    requires es != [] && b < |es|
    ensures NoneSince(es, b, p) <==> b == |es| - 1 || (NoneSince(es[..|es| - 1], b, p) && !Hits(es[|es| - 1], p))
    ensures NothingSince(es, b) <==> b == |es| - 1 || (NothingSince(es[..|es| - 1], b) && !es[|es| - 1].Invalidate?)
  {
    var before := es[..|es| - 1];
    assert forall j :: 0 <= j < |before| ==> before[j] == es[j];
  }

  /** An event that is no invalidation changes nothing of what came since. */
  lemma SinceStays(es: seq<Event>, e: Event, b: nat, p: string)
    requires b < |es| && !e.Invalidate?
    ensures NoneSince(es + [e], b, p) <==> NoneSince(es, b, p)
    ensures NothingSince(es + [e], b) <==> NothingSince(es, b)
  {
    assert (es + [e])[..|es|] == es;
    SinceSteps(es + [e], b, p);
  }

  lemma FreshStays(es: seq<Event>, s: State, e: Event, t: State, p: string, r: nat)
    requires Fresh(es, s, p, r) && ReadKept(es, s, r) && !e.Invalidate?
    requires r < |t.started| && t.started[r].persona == p && t.started[r].begun == s.started[r].begun
    ensures Fresh(es + [e], t, p, r)
  {
    SinceStays(es, e, s.started[r].begun, p);
  }

  lemma CallKeeps(es: seq<Event>, s: State, e: Event)
    requires Kept(es, s) && e.Call?
    ensures Kept(es + [e], Called(s, e.persona, e.now, |es|))
  {
    var t, more := Called(s, e.persona, e.now, |es|), es + [e];
    forall i: nat | i < |t.started|
      ensures ReadKept(more, t, i)
    {
      if i < |s.started| {
        assert ReadKept(es, s, i) && s.started[i] == t.started[i];
        SinceStays(es, e, s.started[i].begun, s.started[i].persona);
      }
    }
    forall p
      ensures CacheKept(more, t, p)
    {
      assert CacheKept(es, s, p);
      if p in s.cache {
        FreshStays(es, s, e, t, p, s.cache[p].read);
      }
    }
    forall p
      ensures InflightKept(more, t, p)
    {
      assert InflightKept(es, s, p);
      if p in s.inflight {
        FreshStays(es, s, e, t, p, s.inflight[p]);
      }
    }
  }

  lemma CompleteKeeps(es: seq<Event>, s: State, e: Event)
    requires Kept(es, s) && e.Complete? && CanComplete(s, e.read)
    ensures Kept(es + [e], Completed(s, e.read, e.now, e.failed))
  {
    var t, more := Completed(s, e.read, e.now, e.failed), es + [e];
    forall i: nat | i < |t.started|
      ensures ReadKept(more, t, i)
    {
      assert ReadKept(es, s, i);
      SinceStays(es, e, s.started[i].begun, s.started[i].persona);
    }
    forall p
      ensures CacheKept(more, t, p)
    {
      assert CacheKept(es, s, p) && ReadKept(es, s, e.read);
      var read := s.started[e.read];
      if p in t.cache && t.cache[p].read == e.read && p == read.persona && read.gen == s.generation {
        assert NoneSince(es, s.started[e.read].begun, p);
        FreshStays(es, s, e, t, p, e.read);
      } else if p in s.cache {
        FreshStays(es, s, e, t, p, s.cache[p].read);
      }
    }
    forall p
      ensures InflightKept(more, t, p)
    {
      assert InflightKept(es, s, p);
      if p in s.inflight {
        FreshStays(es, s, e, t, p, s.inflight[p]);
      }
    }
  }

  lemma FinallyKeeps(es: seq<Event>, s: State, e: Event)
    requires Kept(es, s) && e.Finally? && CanClear(s, e.read)
    ensures Kept(es + [e], Cleared(s, e.read))
  {
    var t, more := Cleared(s, e.read), es + [e];
    forall i: nat | i < |t.started|
      ensures ReadKept(more, t, i)
    {
      assert ReadKept(es, s, i);
      SinceStays(es, e, s.started[i].begun, s.started[i].persona);
    }
    forall p
      ensures CacheKept(more, t, p)
    {
      assert CacheKept(es, s, p);
      if p in s.cache {
        FreshStays(es, s, e, t, p, s.cache[p].read);
      }
    }
    forall p
      ensures InflightKept(more, t, p)
    {
      assert InflightKept(es, s, p);
      if p in t.inflight {
        FreshStays(es, s, e, t, p, s.inflight[p]);
      }
    }
  }

  lemma InvalidateKeeps(es: seq<Event>, s: State, e: Event)
    requires Kept(es, s) && e.Invalidate?
    ensures Kept(es + [e], Invalidated(s, e.persona))
  {
    var t, more := Invalidated(s, e.persona), es + [e];
    assert more[..|es|] == es;
    forall i: nat | i < |t.started|
      ensures ReadKept(more, t, i)
    {
      assert ReadKept(es, s, i);
      SinceSteps(more, s.started[i].begun, s.started[i].persona);
    }
    forall p
      ensures CacheKept(more, t, p)
    {
      assert CacheKept(es, s, p);
      if p in t.cache {
        assert ReadKept(es, s, s.cache[p].read);
        SinceSteps(more, s.started[s.cache[p].read].begun, p);
      }
    }
    forall p
      ensures InflightKept(more, t, p)
    {
      assert InflightKept(es, s, p);
      if p in t.inflight {
        assert ReadKept(es, s, s.inflight[p]);
        SinceSteps(more, s.started[s.inflight[p]].begun, p);
      }
    }
  }

  lemma {:induction false} PlayKeeps(es: seq<Event>)
    requires Play(es).Some?
    ensures Kept(es, Play(es).value)
  {
    if es != [] {
      var before, e := es[..|es| - 1], es[|es| - 1];
      PlayKeeps(before);
      assert es == before + [e];
      var s := Play(before).value;
      match e {
        case Call(_, _) => CallKeeps(before, s, e);
        case Complete(_, _, _) => CompleteKeeps(before, s, e);
        case Finally(_) => FinallyKeeps(before, s, e);
        case Invalidate(_) => InvalidateKeeps(before, s, e);
      }
    }
  }

  /**
   * Freshness: after any history, the value a call is given comes from a read of that persona begun
   * after every earlier invalidation of it; and a cached value is given only within the time to live
   * of a read that has settled.
   */
  lemma CallsAreFresh(es: seq<Event>, p: string, now: int)
    requires Play(es).Some?
    ensures var s := Play(es).value;
            match AnswerTo(s, p, now)
            case Began(_) => true
            case Pending(r) => Fresh(es, s, p, r)
            case Hit(r) =>
              && Fresh(es, s, p, r)
              && s.started[r].phase.Settled?
              && now < s.started[r].phase.at + if s.started[r].phase.ok then 5_000 else 2_000
  {
    PlayKeeps(es);
    assert CacheKept(es, Play(es).value, p) && InflightKept(es, Play(es).value, p);
  }

  /** A read that settles enters the cache exactly when nothing at all was invalidated since it began. */
  lemma OvertakenReadsAreNotCached(es: seq<Event>, r: nat, now: int, failed: bool)
    requires Play(es).Some? && CanComplete(Play(es).value, r)
    ensures var s := Play(es).value;
            var p, t := s.started[r].persona, Completed(s, r, now, failed);
            if NothingSince(es, s.started[r].begun) then p in t.cache && t.cache[p].read == r else t.cache == s.cache
  {
    PlayKeeps(es);
    assert ReadKept(es, Play(es).value, r);
  }

  /**
   * A burst shares one read: of the reads of a persona that no invalidation overtook, only one is
   * under way at a time, and it is the one in flight, whatever older reads finish meanwhile.
   */
  lemma OneReadAtATime(es: seq<Event>, r: nat, p: string)
    requires Play(es).Some?
    requires var s := Play(es).value; Fresh(es, s, p, r) && s.started[r].phase.Reading?
    ensures var s := Play(es).value;
            && p in s.inflight && s.inflight[p] == r
            && forall q: nat :: Fresh(es, s, p, q) && s.started[q].phase.Reading? ==> q == r
  {
    PlayKeeps(es);
    var s := Play(es).value;
    forall q: nat | Fresh(es, s, p, q) && s.started[q].phase.Reading?
      ensures q == r
    {
      assert ReadKept(es, s, q) && ReadKept(es, s, r);
    }
    assert ReadKept(es, s, r);
  }

  /** Calls and invalidations may come at any time, and a read under way may settle. */
  lemma AnyCallMayCome(es: seq<Event>, e: Event)
    requires Play(es).Some?
    requires e.Complete? ==> var s := Play(es).value; e.read < |s.started| && s.started[e.read].phase.Reading?
    requires e.Finally? ==> var s := Play(es).value; e.read < |s.started| && s.started[e.read].phase.Settled?
    ensures Play(es + [e]).Some?
  {
    assert (es + [e])[..|es|] == es;
  }

  /** A read that has finished is nobody's read in flight, whatever came before and after. */
  ghost predicate FinishedLeft(es: seq<Event>, s: State, i: int) {
    0 <= i < |es| && es[i].Finally? ==>
      es[i].read < |s.started| && s.started[es[i].read].phase.Settled?
      && forall p :: p in s.inflight ==> s.inflight[p] != es[i].read
  }

  lemma {:induction false} FinishedReadsLeave(es: seq<Event>)
    requires Play(es).Some?
    ensures forall i :: FinishedLeft(es, Play(es).value, i)
    ensures forall p :: p in Play(es).value.inflight ==> Play(es).value.inflight[p] < |Play(es).value.started|
  {
    if es != [] {
      var before, e := es[..|es| - 1], es[|es| - 1];
      FinishedReadsLeave(before);
      PlayKeeps(before);
      var s, t := Play(before).value, Play(es).value;
      forall i | 0 <= i < |es|
        ensures FinishedLeft(es, t, i)
      {
        if i < |before| {
          assert es[i] == before[i] && FinishedLeft(before, s, i);
        } else if e.Finally? {
          ClearedLeaves(before, s, e.read);
        }
      }
    }
  }

  lemma ClearedLeaves(es: seq<Event>, s: State, r: nat)
    requires Kept(es, s) && CanClear(s, r)
    ensures forall p :: p in Cleared(s, r).inflight ==> s.inflight[p] != r
  {
    forall p | p in s.inflight && s.inflight[p] == r
      ensures p == s.started[r].persona
    {
      assert InflightKept(es, s, p);
    }
  }
}
